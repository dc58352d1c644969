/** Where the packets of a run come from: what the sender of every sent packet held, and what every accepted
    packet was tested for. */
module IbcLaws {
  import opened ByteOrder
  import opened MachineInts
  import opened Queues
  import opened Ibc
  import opened IbcProtocol

  /** The caller holds the right to send for the module and every permission that it sends. */
  ghost predicate HoldsAll(held: set<Actor>, t: CreateTx) {
    && t.mod.Some? && Actor([], t.mod.value, [0x42, 0xbe, 0xef, 0x1]) in held
    && forall i :: 0 <= i < |t.permissions| ==> t.permissions[i] in held
  }

  /** The packet carries the transaction and the permissions, stamped with the sending chain. */
  ghost predicate Carries(p: Packet, a: Bytes, t: CreateTx) {
    && p.dest == t.dest && p.tx == t.tx && |p.permissions| == |t.permissions|
    && forall i :: 0 <= i < |t.permissions| ==>
         p.permissions[i] == Actor(a, t.permissions[i].app, t.permissions[i].address)
  }

  /** A call sends a packet if and only if the destination is registered and the caller holds everything; the
      packet is what was asked for, under the next number. Otherwise nothing changes. */
  lemma CreateIff(enc: Encoding, prove: Prover, w: World, a: Bytes, held: set<Actor>, t: CreateTx) returns (p: Packet)
    requires a in w.chains
    ensures var w', c := Next(enc, prove, w, Create(a, held, t)), w.chains[a];
            if t.dest != [] && t.dest in c.registered && HoldsAll(held, t) then
              && w'.log == w.log + [Sent(a, p)] && Carries(p, a, t)
              && p.sequence == TailOf(c.store, QueuePrefix(Output, t.dest))
            else w' == w
  {
    p := NewPacket(a, w.chains[a], t);
  }

  /** Every packet that `a` sent to `b` comes from a call of the run whose caller held everything that it sent,
      while `b` was registered. The calls come in the order of the packets. */
  lemma {:induction false} SentFromCreate(enc: Encoding, prove: Prover, w: World, steps: seq<Step>, a: Bytes, b: Bytes,
                                          n: nat)
      returns (k: nat)
    requires w.log == [] && n < |SentTo(Run(enc, prove, w, steps).log, a, b)|
    ensures k < |steps| && steps[k].Create? && steps[k].at == a
    ensures var before, t := Run(enc, prove, w, steps[..k]), steps[k].create;
            && a in before.chains && b in before.chains[a].registered && |SentTo(before.log, a, b)| == n
            && t.dest == b && HoldsAll(steps[k].held, t)
            && Carries(SentTo(Run(enc, prove, w, steps).log, a, b)[n], a, t)
    decreases |steps|
  {
    var m := |steps| - 1;
    var before, s := Run(enc, prove, w, steps[..m]), steps[m];
    LogGrows(enc, prove, before, s, a, b);
    if n < |SentTo(before.log, a, b)| {
      k := SentFromCreate(enc, prove, w, steps[..m], a, b, n);
      assert steps[..m][..k] == steps[..k];
    } else {
      k := m;
    }
  }

  /** One step sends at most one packet from `a` to `b`. */
  lemma LogGrows(enc: Encoding, prove: Prover, w: World, s: Step, a: Bytes, b: Bytes)
    ensures var sent, sent' := SentTo(w.log, a, b), SentTo(Next(enc, prove, w, s).log, a, b);
            sent' == sent ||
            (&& s.Create? && s.at == a && a in w.chains && s.create.dest == b && b in w.chains[a].registered
             && HoldsAll(s.held, s.create) && |sent'| == |sent| + 1 && sent' == sent + [sent'[|sent|]]
             && Carries(sent'[|sent|], a, s.create))
  {
    assert w.log + [] == w.log;
    if s.at in w.chains && s.Create? {
      var p := CreateIff(enc, prove, w, s.at, s.held, s.create);
      LogSnoc(w.log, Sent(s.at, p), a, b);
    } else if s.at in w.chains && s.Post? {
      LogSnoc(w.log, Accepted(s.at, s.post.from, s.post.packet), a, b);
    }
  }

  // ---------------------------------------------------------------------------------------------
  // Accepted packets

  /** The peer is registered, the packet is for this chain with permissions of the peer only and the next number,
      and a proof shows it in the state behind the peer's header after the stated height. */
  ghost predicate Proven(enc: Encoding, prove: Prover, id: Bytes, c: Chain, t: PostTx) {
    && t.from in c.registered && t.packet.dest == id
    && (forall i :: 0 <= i < |t.packet.permissions| ==> t.packet.permissions[i].chain == t.from)
    && t.packet.sequence == TailOf(c.store, QueuePrefix(Input, t.from))
    && (t.from, t.height + 1) in c.headers
    && prove(t.proof, t.key, enc(t.packet), c.headers[(t.from, t.height + 1)])
  }

  /** A post is accepted if and only if all that holds. Otherwise nothing changes. */
  lemma PostIff(enc: Encoding, prove: Prover, w: World, id: Bytes, t: PostTx)
    requires id in w.chains
    ensures var w' := Next(enc, prove, w, Post(id, t));
            if Proven(enc, prove, id, w.chains[id], t) then w'.log == w.log + [Accepted(id, t.from, t.packet)]
            else w' == w
  {
  }

  lemma AcceptedGrows(enc: Encoding, prove: Prover, w: World, s: Step, a: Bytes, b: Bytes)
    ensures var got, got' := AcceptedFrom(w.log, b, a), AcceptedFrom(Next(enc, prove, w, s).log, b, a);
            got' == got ||
            (&& s.Post? && s.at == b && b in w.chains && s.post.from == a && Proven(enc, prove, b, w.chains[b], s.post)
             && got' == got + [s.post.packet])
  {
    assert w.log + [] == w.log;
    if s.at in w.chains && s.Create? {
      var p := CreateIff(enc, prove, w, s.at, s.held, s.create);
      LogSnoc(w.log, Sent(s.at, p), a, b);
    } else if s.at in w.chains && s.Post? {
      PostIff(enc, prove, w, s.at, s.post);
      LogSnoc(w.log, Accepted(s.at, s.post.from, s.post.packet), a, b);
    }
  }

  /** Every packet that `b` accepted from `a` comes from a post of the run that proved it while `a` was registered. */
  lemma {:induction false} AcceptedFromPost(enc: Encoding, prove: Prover, w: World, steps: seq<Step>, a: Bytes,
                                            b: Bytes, n: nat)
      returns (k: nat)
    requires w.log == [] && n < |AcceptedFrom(Run(enc, prove, w, steps).log, b, a)|
    ensures k < |steps| && steps[k].Post? && steps[k].at == b && steps[k].post.from == a
    ensures var before := Run(enc, prove, w, steps[..k]);
            && b in before.chains && Proven(enc, prove, b, before.chains[b], steps[k].post)
            && |AcceptedFrom(before.log, b, a)| == n
            && AcceptedFrom(Run(enc, prove, w, steps).log, b, a)[n] == steps[k].post.packet
    decreases |steps|
  {
    var m := |steps| - 1;
    var before := Run(enc, prove, w, steps[..m]);
    AcceptedGrows(enc, prove, before, steps[m], a, b);
    if n < |AcceptedFrom(before.log, b, a)| {
      k := AcceptedFromPost(enc, prove, w, steps[..m], a, b, n);
      assert steps[..m][..k] == steps[..k];
    } else {
      k := m;
    }
  }

  // ---------------------------------------------------------------------------------------------
  // Keys

  /** The queues are at "ibc", NUL, the peer's id, NUL, "i" or "o", NUL. */
  lemma QueueKeyBytes(id: Bytes, key: Bytes)
    ensures QueuePrefix(Input, id) + key == [105, 98, 99, 0] + id + [0, 105, 0] + key
    ensures QueuePrefix(Output, id) + key == [105, 98, 99, 0] + id + [0, 111, 0] + key
  {
  }
}
