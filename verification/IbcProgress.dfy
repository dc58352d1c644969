/** The packet protocol never gets stuck: every run can be continued until all packets are accepted. */
module IbcProgress {
  import opened ByteOrder
  import opened MachineInts
  import opened Queues
  import opened Ibc
  import opened IbcProtocol

  /** Whatever is in the state behind a root has a proof. */
  ghost predicate Complete(prove: Prover) {
    forall key, root: Store :: key in root ==> exists proof :: prove(proof, key, root[key], root)
  }

  /** The chain `b` knows the header `height` of `a`, behind which all packets from `a` to `b` are stored. */
  ghost predicate Ready(enc: Encoding, w: World, a: Bytes, b: Bytes, height: int) {
    && Inv(enc, w) && a in w.chains && b in w.chains && |SentTo(w.log, a, b)| <= WORD
    && a in w.chains[b].registered && height >= 1 && (a, height) in w.chains[b].headers
    && AllStored(enc, w.chains[b].headers[(a, height)], b, SentTo(w.log, a, b))
  }

  ghost predicate AllStored(enc: Encoding, root: Store, b: Bytes, ps: seq<Packet>) {
    forall i :: 0 <= i < |ps| ==> Stored(root, QueuePrefix(Output, b), i, enc(ps[i]))
  }

  /** Of at most 2^64 values every one is in the slot of its number. */
  lemma SlotOf(data: Store, prefix: Bytes, items: seq<Bytes>, i: nat)
    requires Loads(data, prefix, items) && i < |items| <= WORD
    ensures Stored(data, prefix, i, items[i])
  {
    assert Stored(data, prefix, i % WORD, items[i]);
  }

  lemma LoadsStores(enc: Encoding, store: Store, b: Bytes, ps: seq<Packet>)
    requires Loads(store, QueuePrefix(Output, b), Encoded(enc, ps)) && |ps| <= WORD
    ensures AllStored(enc, store, b, ps)
  {
    forall i | 0 <= i < |ps| ensures Stored(store, QueuePrefix(Output, b), i, enc(ps[i])) {
      SlotOf(store, QueuePrefix(Output, b), Encoded(enc, ps), i);
    }
  }

  lemma SentAreStored(enc: Encoding, w: World, a: Bytes, b: Bytes)
    requires Inv(enc, w) && a in w.chains && b in w.chains && |SentTo(w.log, a, b)| <= WORD
    ensures AllStored(enc, w.chains[a].store, b, SentTo(w.log, a, b))
  {
    assert ChainInv(enc, w, a);
    assert QueueHolds(enc, w.chains[a].store, w.log, a, Output, b);
    LoadsStores(enc, w.chains[a].store, b, SentTo(w.log, a, b));
  }

  /** `a` commits and `b` stores the next header of `a`. */
  lemma GetReady(enc: Encoding, prove: Prover, w: World, a: Bytes, b: Bytes) returns (height: int)
    requires GoodEncoding(enc) && Sound(prove) && Inv(enc, w) && a in w.chains && b in w.chains
    requires |SentTo(w.log, a, b)| <= WORD
    ensures var w1 := Next(enc, prove, w, Commit(a));
            var w2 := Next(enc, prove, w1, Learn(b, a, height));
            Fair(enc, w1, Learn(b, a, height)) && Ready(enc, w2, a, b, height) && w2.log == w.log
  {
    height := |w.chains[a].history| + 1;
    var w1 := Next(enc, prove, w, Commit(a));
    var w2 := Next(enc, prove, w1, Learn(b, a, height));
    assert w.log + [] == w.log;
    NextKeepsInv(enc, prove, w, Commit(a));
    NextKeepsInv(enc, prove, w1, Learn(b, a, height));
    SentAreStored(enc, w, a, b);
  }

  /** The post of the next packet. */
  ghost function NextPost(w: World, a: Bytes, b: Bytes, height: int, proof: Bytes): Step
    requires height >= 1 && |AcceptedFrom(w.log, b, a)| < |SentTo(w.log, a, b)|
  {
    var n := |AcceptedFrom(w.log, b, a)|;
    Post(b, PostTx(a, height - 1, proof, QueuePrefix(Output, b) + Slot(n), SentTo(w.log, a, b)[n]))
  }

  lemma HasProof(enc: Encoding, prove: Prover, root: Store, b: Bytes, ps: seq<Packet>, n: nat) returns (proof: Bytes)
    requires Complete(prove) && AllStored(enc, root, b, ps) && n < |ps|
    ensures prove(proof, QueuePrefix(Output, b) + Slot(n), enc(ps[n]), root)
  {
    var key := QueuePrefix(Output, b) + Slot(n);
    assert Stored(root, QueuePrefix(Output, b), n, enc(ps[n]));
    proof :| prove(proof, key, root[key], root);
  }

  lemma PostPasses(enc: Encoding, prove: Prover, w: World, a: Bytes, b: Bytes, height: int) returns (proof: Bytes)
    requires Complete(prove) && Ready(enc, w, a, b, height) && |AcceptedFrom(w.log, b, a)| < |SentTo(w.log, a, b)|
    ensures MayPost(enc, prove, b, w.chains[b], NextPost(w, a, b, height, proof).post)
  {
    var n := |AcceptedFrom(w.log, b, a)|;
    proof := HasProof(enc, prove, w.chains[b].headers[(a, height)], b, SentTo(w.log, a, b), n);
    NextCanBePosted(enc, prove, w, a, b, height - 1, proof, QueuePrefix(Output, b) + Slot(n));
  }

  lemma PostOne(enc: Encoding, prove: Prover, w: World, a: Bytes, b: Bytes, height: int) returns (s: Step)
    requires GoodEncoding(enc) && Sound(prove) && Complete(prove) && a != b && Ready(enc, w, a, b, height)
    requires |AcceptedFrom(w.log, b, a)| < |SentTo(w.log, a, b)|
    ensures Fair(enc, w, s)
    ensures var w' := Next(enc, prove, w, s);
            && Ready(enc, w', a, b, height) && SentTo(w'.log, a, b) == SentTo(w.log, a, b)
            && |AcceptedFrom(w'.log, b, a)| == |AcceptedFrom(w.log, b, a)| + 1
  {
    var proof := PostPasses(enc, prove, w, a, b, height);
    s := NextPost(w, a, b, height, proof);
    LogSnoc(w.log, Accepted(b, a, s.post.packet), a, b);
    NextKeepsInv(enc, prove, w, s);
  }

  lemma PostAll(enc: Encoding, prove: Prover, w: World, a: Bytes, b: Bytes, height: int) returns (steps: seq<Step>)
    requires GoodEncoding(enc) && Sound(prove) && Complete(prove) && a != b && Ready(enc, w, a, b, height)
    requires |AcceptedFrom(w.log, b, a)| <= |SentTo(w.log, a, b)|
    ensures FairRun(enc, prove, w, steps)
    ensures var e := Run(enc, prove, w, steps);
            && Ready(enc, e, a, b, height) && SentTo(e.log, a, b) == SentTo(w.log, a, b)
            && |AcceptedFrom(e.log, b, a)| == |SentTo(w.log, a, b)|
  {
    steps := [];
    var e := w;
    while |AcceptedFrom(e.log, b, a)| < |SentTo(w.log, a, b)|
      invariant FairRun(enc, prove, w, steps) && e == Run(enc, prove, w, steps) && Ready(enc, e, a, b, height)
      invariant SentTo(e.log, a, b) == SentTo(w.log, a, b)
      invariant |AcceptedFrom(e.log, b, a)| <= |SentTo(w.log, a, b)|
      decreases |SentTo(w.log, a, b)| - |AcceptedFrom(e.log, b, a)|
    {
      var s := PostOne(enc, prove, e, a, b, height);
      Extend(enc, prove, w, steps, s);
      steps, e := steps + [s], Next(enc, prove, e, s);
    }
  }

  /** Up to the last of 2^64 packets. */
  lemma CatchUpTo(enc: Encoding, prove: Prover, w: World, a: Bytes, b: Bytes) returns (steps: seq<Step>, height: int)
    requires GoodEncoding(enc) && Sound(prove) && Complete(prove) && a != b
    requires Inv(enc, w) && a in w.chains && b in w.chains
    requires |AcceptedFrom(w.log, b, a)| <= |SentTo(w.log, a, b)| <= WORD
    ensures FairRun(enc, prove, w, steps)
    ensures var e := Run(enc, prove, w, steps);
            && Ready(enc, e, a, b, height) && SentTo(e.log, a, b) == SentTo(w.log, a, b)
            && |AcceptedFrom(e.log, b, a)| == |SentTo(w.log, a, b)|
  {
    height := GetReady(enc, prove, w, a, b);
    Extend(enc, prove, w, [], Commit(a));
    Extend(enc, prove, w, [] + [Commit(a)], Learn(b, a, height));
    var first := [] + [Commit(a)] + [Learn(b, a, height)];
    var more := PostAll(enc, prove, Run(enc, prove, w, first), a, b, height);
    Append(enc, prove, w, first, more);
    steps := first + more;
  }

  /** With a complete prover, every world that keeps the invariant and in which `a` enqueued fewer than 2^64
      packets for `b` can be continued, by fair steps and without sending anything more, to one in which `b` has
      accepted all of them. */
  lemma CatchUp(enc: Encoding, prove: Prover, w: World, a: Bytes, b: Bytes) returns (steps: seq<Step>)
    requires GoodEncoding(enc) && Sound(prove) && Complete(prove) && a != b
    requires Inv(enc, w) && a in w.chains && b in w.chains && |SentTo(w.log, a, b)| < WORD
    ensures FairRun(enc, prove, w, steps)
    ensures var e := Run(enc, prove, w, steps);
            AcceptedFrom(e.log, b, a) == SentTo(e.log, a, b) == SentTo(w.log, a, b)
  {
    PrefixOfSent(w.log, a, b);
    var height;
    steps, height := CatchUpTo(enc, prove, w, a, b);
    PrefixOfSent(Run(enc, prove, w, steps).log, a, b);
  }

  /** The same for every run from a fresh world. */
  lemma EveryRunCanCatchUp(enc: Encoding, prove: Prover, w: World, steps: seq<Step>, a: Bytes, b: Bytes)
      returns (more: seq<Step>)
    requires GoodEncoding(enc) && Sound(prove) && Complete(prove) && a != b
    requires Init(enc, w) && FairRun(enc, prove, w, steps)
    requires var after := Run(enc, prove, w, steps);
             a in after.chains && b in after.chains && |SentTo(after.log, a, b)| < WORD
    ensures FairRun(enc, prove, w, steps + more)
    ensures var e := Run(enc, prove, w, steps + more);
            AcceptedFrom(e.log, b, a) == SentTo(e.log, a, b) == SentTo(Run(enc, prove, w, steps).log, a, b)
  {
    RunKeepsInv(enc, prove, w, steps);
    more := CatchUp(enc, prove, Run(enc, prove, w, steps), a, b);
    Append(enc, prove, w, steps, more);
  }
}
