/** Exactly when the packet theorem holds: for two different chains, and fewer than 2^64 packets. */
module IbcExact {
  import opened ByteOrder
  import opened MachineInts
  import opened Queues
  import opened Ibc
  import opened IbcProtocol
  import opened IbcProgress
  import opened IbcSelfPost

  // ---------------------------------------------------------------------------------------------
  // A run in which the counter wraps around: `a` enqueues 2^64 packets, `b` accepts them all, and then
  // accepts the first one once more

  ghost predicate Sending(x: Ids, enc: Encoding, w: World, n: nat) {
    && Good(x, enc, w) && x.b in w.chains[x.a].registered
    && |SentTo(w.log, x.a, x.b)| == n && AcceptedFrom(w.log, x.b, x.a) == []
  }

  lemma SendOne(x: Ids, enc: Encoding, w: World, n: nat)
    requires Sending(x, enc, w, n)
    ensures Sending(x, enc, Do(enc, w, CreateP(x)), n + 1)
  {
    StepGood(x, enc, w, CreateP(x));
    LogSnoc(w.log, Sent(x.a, NewPacket(x.a, w.chains[x.a], Tx(x))), x.a, x.b);
  }

  lemma {:induction false} SendMany(x: Ids, enc: Encoding, w: World, n: nat) returns (steps: seq<Step>)
    requires Sending(x, enc, w, 0)
    ensures FairRun(enc, PROVE, w, steps) && Sending(x, enc, Run(enc, PROVE, w, steps), n)
    decreases n
  {
    steps := [];
    if n > 0 {
      steps := SendMany(x, enc, w, n - 1);
      SendOne(x, enc, Run(enc, PROVE, w, steps), n - 1);
      Extend(enc, PROVE, w, steps, CreateP(x));
      steps := steps + [CreateP(x)];
    }
  }

  lemma UntilSent(x: Ids, enc: Encoding, n: nat) returns (steps: seq<Step>)
    requires Usable(x) && GoodEncoding(enc)
    ensures FairRun(enc, PROVE, Start(x), steps) && Sending(x, enc, Run(enc, PROVE, Start(x), steps), n)
  {
    StartGood(x, enc);
    Registering(x, enc, Start(x));
    Extend(enc, PROVE, Start(x), [], Commit(x.b));
    Extend(enc, PROVE, Start(x), [] + [Commit(x.b)], ALearnsB(x));
    var first := [] + [Commit(x.b)] + [ALearnsB(x)];
    var more := SendMany(x, enc, Run(enc, PROVE, Start(x), first), n);
    Append(enc, PROVE, Start(x), first, more);
    steps := first + more;
  }

  lemma ProverIsComplete()
    ensures Sound(PROVE) && Complete(PROVE)
  {
    forall key, root: Store | key in root ensures exists proof :: PROVE(proof, key, root[key], root) {
      assert PROVE([], key, root[key], root);
    }
  }

  lemma UntilAllAccepted(x: Ids, enc: Encoding) returns (steps: seq<Step>, height: int)
    requires Usable(x) && GoodEncoding(enc)
    ensures FairRun(enc, PROVE, Start(x), steps)
    ensures var w := Run(enc, PROVE, Start(x), steps);
            Ready(enc, w, x.a, x.b, height) && |AcceptedFrom(w.log, x.b, x.a)| == |SentTo(w.log, x.a, x.b)| == WORD
  {
    var first := UntilSent(x, enc, WORD);
    ProverIsComplete();
    var more;
    more, height := CatchUpTo(enc, PROVE, Run(enc, PROVE, Start(x), first), x.a, x.b);
    Append(enc, PROVE, Start(x), first, more);
    steps := first + more;
  }

  /** The first packet, posted once more. */
  ghost function Again(x: Ids, w: World, height: int): Step
    requires height >= 1 && SentTo(w.log, x.a, x.b) != []
  {
    Post(x.b, PostTx(x.a, height - 1, [], QueuePrefix(Output, x.b) + Slot(0), SentTo(w.log, x.a, x.b)[0]))
  }

  lemma AgainPasses(x: Ids, enc: Encoding, w: World, height: int)
    requires Ready(enc, w, x.a, x.b, height)
    requires |AcceptedFrom(w.log, x.b, x.a)| == |SentTo(w.log, x.a, x.b)| == WORD
    ensures MayPost(enc, PROVE, x.b, w.chains[x.b], Again(x, w, height).post)
  {
    var p := SentTo(w.log, x.a, x.b)[0];
    assert ChainInv(enc, w, x.b);
    assert QueueHolds(enc, w.chains[x.b].store, w.log, x.b, Input, x.a);
    assert PairInv(w.log, x.a, x.b);
    assert Stored(w.chains[x.b].headers[(x.a, height)], QueuePrefix(Output, x.b), 0, enc(p));
  }

  /** With 2^64 packets the theorem fails: for any two chains and any encoding there is a fair run from a fresh
      world in which `b` accepts one packet more than `a` enqueued. */
  lemma WrappedAcceptsTwice(x: Ids, enc: Encoding) returns (steps: seq<Step>)
    requires Usable(x) && GoodEncoding(enc)
    ensures Sound(PROVE) && Init(enc, Start(x)) && FairRun(enc, PROVE, Start(x), steps)
    ensures var log := Run(enc, PROVE, Start(x), steps).log;
            |SentTo(log, x.a, x.b)| == WORD && |AcceptedFrom(log, x.b, x.a)| == WORD + 1
  {
    StartGood(x, enc);
    ProverIsComplete();
    var height;
    steps, height := UntilAllAccepted(x, enc);
    var w := Run(enc, PROVE, Start(x), steps);
    AgainPasses(x, enc, w, height);
    LogSnoc(w.log, Accepted(x.b, x.a, Again(x, w, height).post.packet), x.a, x.b);
    Extend(enc, PROVE, Start(x), steps, Again(x, w, height));
    steps := steps + [Again(x, w, height)];
  }

  // ---------------------------------------------------------------------------------------------
  // The exact condition

  /** In every run in which `a` enqueued at most `bound` packets for `b`, those that `b` accepted from `a` are a
      prefix of them. */
  ghost predicate AlwaysPrefix(enc: Encoding, a: Bytes, b: Bytes, bound: nat) {
    forall prove: Prover, w, steps ::
      Sound(prove) && Init(enc, w) && FairRun(enc, prove, w, steps) &&
      |SentTo(Run(enc, prove, w, steps).log, a, b)| <= bound ==>
        AcceptedFrom(Run(enc, prove, w, steps).log, b, a) <= SentTo(Run(enc, prove, w, steps).log, a, b)
  }

  /** That is so if and only if they are two different chains and no counter can wrap around. */
  lemma PrefixIff(enc: Encoding, a: Bytes, b: Bytes, bound: nat)
    requires GoodEncoding(enc) && NulFree(a) && NulFree(b) && b != []
    ensures AlwaysPrefix(enc, a, b, bound) <==> a != b && bound < WORD
  {
    if a == b {
      var x := Ids(b + [1], b);
      assert x.a != x.b;
      var steps := SelfAcceptedNeedNotBeSent(x, enc);
      assert !AlwaysPrefix(enc, a, b, bound);
    } else if bound >= WORD {
      var steps := WrappedAcceptsTwice(Ids(a, b), enc);
      assert !AlwaysPrefix(enc, a, b, bound);
    } else {
      forall prove: Prover, w, steps
        | Sound(prove) && Init(enc, w) && FairRun(enc, prove, w, steps) &&
          |SentTo(Run(enc, prove, w, steps).log, a, b)| <= bound
        ensures AcceptedFrom(Run(enc, prove, w, steps).log, b, a) <= SentTo(Run(enc, prove, w, steps).log, a, b)
      {
        AcceptedIsPrefixOfSent(enc, prove, w, steps, a, b);
      }
    }
  }
}
