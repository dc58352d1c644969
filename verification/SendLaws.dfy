/** What payments and plugin calls do, written out account by account and denomination by denomination. */
module SendLaws {
  import opened ByteOrder
  import opened MachineInts
  import opened Coins
  import opened Coins64
  import opened ExecTxs

  // ---------------------------------------------------------------------------------------------
  // Addresses

  lemma {:induction false} FirstSlash(chain: Bytes, rest: Bytes)
    requires SLASH !in chain
    ensures SlashAt(chain + [SLASH] + rest) == |chain|
  {
    var a := chain + [SLASH] + rest;
    if chain != [] {
      assert a[1..] == chain[1..] + [SLASH] + rest;
      FirstSlash(chain[1..], rest);
    }
  }

  lemma {:induction false} NoSlashBefore(a: Bytes)
    ensures SLASH !in a[..SlashAt(a)]
  {
    if a != [] && a[0] != SLASH {
      NoSlashBefore(a[1..]);
      assert a[..SlashAt(a)] == [a[0]] + a[1..][..SlashAt(a[1..])];
    }
  }

  /** A remote address is a chain id without slash, the slash and twenty bytes. */
  lemma RemoteIff(a: Bytes, chain: Bytes, address: Bytes)
    ensures Destination(a) == Remote(chain, address) <==>
            a == chain + [SLASH] + address && SLASH !in chain && |address| == 20
  {
    NoSlashBefore(a);
    if a == chain + [SLASH] + address && SLASH !in chain && |address| == 20 {
      FirstSlash(chain, address);
    }
    var n := SlashAt(a);
    if Destination(a) == Remote(chain, address) {
      assert a == a[..n] + [a[n]] + a[n + 1..];
    }
  }

  /** A local address is twenty bytes. */
  lemma LocalIff(a: Bytes, address: Bytes)
    ensures Destination(a) == Local(address) <==> a == address && |a| == 20
  {
  }

  ghost predicate WellFormed(a: Bytes) {
    |a| == 20 || exists chain, address :: a == chain + [SLASH] + address && SLASH !in chain && |address| == 20
  }

  lemma WellFormedIff(a: Bytes)
    ensures Destination(a) != Malformed <==> WellFormed(a)
  {
    match Destination(a)
    case Malformed =>
      if WellFormed(a) && |a| != 20 {
        var chain, address :| a == chain + [SLASH] + address && SLASH !in chain && |address| == 20;
        RemoteIff(a, chain, address);
      }
    case Local(_) =>
    case Remote(chain, address) => RemoteIff(a, chain, address);
  }

  // ---------------------------------------------------------------------------------------------
  // What is accepted

  /** The coins are not empty, strictly sorted, and nonzero but for the first of several. */
  ghost predicate Spendable(c: Coins) {
    && c != [] && (forall i, j :: 0 <= i < j < |c| ==> Less(c[i].denom, c[j].denom))
    && (forall i :: 0 <= i < |c| && c[i].amount == 0 ==> i == 0 && |c| >= 2)
  }

  lemma SpendableIff(c: Coins)
    ensures Spendable(c) <==> Valid(c) && c != []
  {
    if |c| >= 2 {
      assert c == [c[0]] + c[1..];
      if Valid(c) {
        forall i | 0 < i < |c| ensures c[i].amount != 0 {
          assert c[1..][i - 1] == c[i];
        }
      }
    }
  }

  /** The key that an input is verified under: the one that it supplies, or the stored one. */
  function KeyOf(accounts: Accounts, i: TxInput): Option<Bytes>
    requires i.address in accounts
  {
    if i.pubKey.Some? then i.pubKey else accounts[i.address].pubKey
  }

  /** What an input must satisfy, whoever checks it. */
  ghost predicate InputStands(accounts: Accounts, i: TxInput) {
    && |i.address| == 20 && i.address in accounts && Spendable(i.coins)
    && i.sequence > 0 && i.sequence == Int64(accounts[i.address].sequence + 1) && (i.pubKey.Some? <==> i.sequence == 1)
    && NoGapNegative(accounts[i.address].balance, i.coins)
  }

  lemma CoveredIff(accounts: Accounts, i: TxInput)
    requires GoodBalances(accounts) && i.address in accounts && Valid(i.coins) && Typed(i.coins)
    ensures Covered(accounts, i) <==> NoGapNegative(accounts[i.address].balance, i.coins)
  {
    GTE64Iff(accounts[i.address].balance, i.coins);
  }

  lemma InputStandsIff(accounts: Accounts, i: TxInput)
    requires GoodBalances(accounts) && Typed(i.coins)
    ensures InputStands(accounts, i) <==> InputBasic(i) && IsNext(accounts, i) && Covered(accounts, i)
  {
    SpendableIff(i.coins);
    if Valid(i.coins) && i.address in accounts {
      CoveredIff(accounts, i);
    }
  }

  ghost predicate InputsStand(verify: Verifier, accounts: Accounts, tx: SendTx) {
    forall i :: 0 <= i < |tx.inputs| ==>
      InputStands(accounts, tx.inputs[i]) && verify(tx, KeyOf(accounts, tx.inputs[i]), tx.inputs[i].signature)
  }

  ghost predicate OutputsStand(outs: seq<TxOutput>) {
    forall j :: 0 <= j < |outs| ==> WellFormed(outs[j].address) && Spendable(outs[j].coins)
  }

  /** No two inputs and local outputs have the same address. */
  ghost predicate Different(tx: SendTx) {
    && (forall i, j :: 0 <= i < j < |tx.inputs| ==> tx.inputs[i].address != tx.inputs[j].address)
    && (forall i, j :: 0 <= i < |tx.inputs| && 0 <= j < |tx.outputs| ==>
          |tx.outputs[j].address| == 20 ==> tx.inputs[i].address != tx.outputs[j].address)
    && (forall i, j :: 0 <= i < j < |tx.outputs| ==>
          |tx.outputs[i].address| == 20 ==> tx.outputs[i].address != tx.outputs[j].address)
  }

  lemma OutputsStandIff(outs: seq<TxOutput>)
    ensures OutputsStand(outs) <==> forall j :: 0 <= j < |outs| ==> OutputBasic(outs[j])
  {
    forall j | 0 <= j < |outs|
      ensures WellFormed(outs[j].address) && Spendable(outs[j].coins) <==> OutputBasic(outs[j])
    {
      WellFormedIff(outs[j].address);
      SpendableIff(outs[j].coins);
    }
  }

  lemma InputsStandIff(verify: Verifier, accounts: Accounts, tx: SendTx)
    requires GoodBalances(accounts) && TypedTx(tx)
    ensures InputsStand(verify, accounts, tx) <==>
            forall i :: 0 <= i < |tx.inputs| ==>
              && InputBasic(tx.inputs[i]) && IsNext(accounts, tx.inputs[i]) && Covered(accounts, tx.inputs[i])
              && Signed(verify, tx, accounts, tx.inputs[i])
  {
    forall i | 0 <= i < |tx.inputs|
      ensures InputStands(accounts, tx.inputs[i]) <==>
              InputBasic(tx.inputs[i]) && IsNext(accounts, tx.inputs[i]) && Covered(accounts, tx.inputs[i])
      ensures tx.inputs[i].address in accounts ==>
                (Signed(verify, tx, accounts, tx.inputs[i]) <==>
                 verify(tx, KeyOf(accounts, tx.inputs[i]), tx.inputs[i].signature))
    {
      InputStandsIff(accounts, tx.inputs[i]);
    }
  }

  lemma DifferentIfLoad(accounts: Accounts, tx: SendTx)
    requires InputsLoad(accounts, tx.inputs) && OutputsLoad(tx.inputs, tx.outputs)
    ensures Different(tx)
  {
    forall i, j | 0 <= i < |tx.inputs| && 0 <= j < |tx.outputs| && |tx.outputs[j].address| == 20
      ensures tx.inputs[i].address != tx.outputs[j].address
    {
      LocalIff(tx.outputs[j].address, tx.outputs[j].address);
    }
    forall i, j | 0 <= i < j < |tx.outputs| && |tx.outputs[i].address| == 20
      ensures tx.outputs[i].address != tx.outputs[j].address
    {
      LocalIff(tx.outputs[i].address, tx.outputs[i].address);
    }
  }

  lemma DifferentIff(accounts: Accounts, tx: SendTx)
    requires forall i :: 0 <= i < |tx.inputs| ==> tx.inputs[i].address in accounts
    ensures Different(tx) <==> InputsLoad(accounts, tx.inputs) && OutputsLoad(tx.inputs, tx.outputs)
  {
    if Different(tx) {
      LoadIfDifferent(tx);
    }
    if InputsLoad(accounts, tx.inputs) && OutputsLoad(tx.inputs, tx.outputs) {
      DifferentIfLoad(accounts, tx);
    }
  }

  lemma LoadIfDifferent(tx: SendTx)
    requires Different(tx)
    ensures OutputsLoad(tx.inputs, tx.outputs)
  {
    forall j | 0 <= j < |tx.outputs| && Destination(tx.outputs[j].address).Local?
      ensures !IsInput(tx.inputs, Destination(tx.outputs[j].address).address)
    {
      LocalIff(tx.outputs[j].address, tx.outputs[j].address);
    }
    forall i, j | 0 <= i < j < |tx.outputs| && Destination(tx.outputs[i].address).Local?
      ensures Destination(tx.outputs[i].address) != Destination(tx.outputs[j].address)
    {
      LocalIff(tx.outputs[i].address, tx.outputs[i].address);
      LocalIff(tx.outputs[j].address, tx.outputs[j].address);
    }
  }

  /** A payment is accepted if and only if every input is known, signed under the supplied or stored key, carries the
      next sequence number and leaves no wrapped difference negative, every output is well formed, no address of
      this chain occurs twice, and both sides have the same total. */
  lemma AcceptsIff(verify: Verifier, accounts: Accounts, tx: SendTx)
    requires GoodBalances(accounts) && TypedTx(tx)
    ensures Accepts(verify, accounts, tx) <==>
            && InputsStand(verify, accounts, tx) && OutputsStand(tx.outputs) && Different(tx)
            && TotalIn(tx.inputs) == OutPlusFees(tx)
  {
    InputsStandIff(verify, accounts, tx);
    OutputsStandIff(tx.outputs);
    if forall i :: 0 <= i < |tx.inputs| ==> tx.inputs[i].address in accounts {
      DifferentIff(accounts, tx);
    } else {
      var i :| 0 <= i < |tx.inputs| && tx.inputs[i].address !in accounts;
      assert !InputStands(accounts, tx.inputs[i]) && !IsNext(accounts, tx.inputs[i]);
    }
  }

  /** Nobody spends more than they have, unless the difference overflows. */
  lemma AcceptedIsCovered(verify: Verifier, accounts: Accounts, tx: SendTx, i: nat, d: Bytes)
    requires GoodBalances(accounts) && TypedTx(tx) && Accepts(verify, accounts, tx) && i < |tx.inputs|
    ensures var has, spends := Amount(accounts[tx.inputs[i].address].balance, d), Amount(tx.inputs[i].coins, d);
            Int64(has - spends) >= 0 && (IsInt64(has - spends) ==> has >= spends)
  {
    AcceptsIff(verify, accounts, tx);
    assert InputStands(accounts, tx.inputs[i]);
    assert Gap(accounts[tx.inputs[i].address].balance, tx.inputs[i].coins, d) >= 0;
    Int64Range(Amount(accounts[tx.inputs[i].address].balance, d) - Amount(tx.inputs[i].coins, d));
  }

  // ---------------------------------------------------------------------------------------------
  // What a payment does

  lemma InputIsNoOutput(tx: SendTx, i: nat)
    requires OutputsLoad(tx.inputs, tx.outputs) && i < |tx.inputs|
    ensures !IsLocalOutput(tx.outputs, tx.inputs[i].address)
  {
    assert IsInput(tx.inputs, tx.inputs[i].address);
  }

  lemma PayerRecord(verify: Verifier, l: Ledger, tx: SendTx, isCheckTx: bool, i: nat)
    requires Accepts(verify, l.accounts, tx) && i < |tx.inputs|
    ensures var a, l' := tx.inputs[i].address, Step(verify, l, tx, isCheckTx);
            a in l.accounts && a in l'.accounts && l'.accounts[a] == Debit(l.accounts[a], tx.inputs[i])
  {
    AcceptedAllNext(verify, l.accounts, tx);
    DebitedSequence(l.accounts, tx.inputs, i);
    InputIsNoOutput(tx, i);
    CreditedElsewhere(l.accounts, Debited(l.accounts, tx.inputs), tx.outputs, tx.inputs[i].address);
  }

  /** The account has the input's sequence number and key and, in every denomination, the balance less the coins. */
  ghost predicate Pays(was: Account, i: TxInput, after: Account) {
    && after.sequence == i.sequence && after.pubKey == (if i.pubKey.Some? then i.pubKey else was.pubKey)
    && forall d :: Amount(after.balance, d) == Int64(Amount(was.balance, d) - Amount(i.coins, d))
  }

  lemma DebitPays(acc: Account, i: TxInput)
    requires GoodCoins(acc.balance) && GoodCoins(i.coins) && Int64(acc.sequence + 1) == i.sequence
    ensures Pays(acc, i, Debit(acc, i))
  {
    forall d ensures Amount(Minus64(acc.balance, i.coins), d) == Int64(Amount(acc.balance, d) - Amount(i.coins, d)) {
      Minus64Amount(acc.balance, i.coins, d);
    }
  }

  /** The account of an accepted input pays its coins, in checking and in delivery. */
  lemma PayerAfter(verify: Verifier, l: Ledger, tx: SendTx, isCheckTx: bool, i: nat)
    requires GoodBalances(l.accounts) && TypedTx(tx) && Accepts(verify, l.accounts, tx) && i < |tx.inputs|
    ensures var a, l' := tx.inputs[i].address, Step(verify, l, tx, isCheckTx);
            a in l.accounts && a in l'.accounts && Pays(l.accounts[a], tx.inputs[i], l'.accounts[a])
  {
    PayerRecord(verify, l, tx, isCheckTx, i);
    AcceptedAllNext(verify, l.accounts, tx);
    AcceptedGood(verify, l.accounts, tx);
    DebitPays(l.accounts[tx.inputs[i].address], tx.inputs[i]);
  }

  lemma {:induction false} CreditedAt(loaded: Accounts, accounts: Accounts, ins: seq<TxInput>, outs: seq<TxOutput>,
                                      j: nat)
    requires OutputsLoad(ins, outs) && j < |outs| && Destination(outs[j].address).Local?
    ensures var a, after := Destination(outs[j].address).address, Credited(loaded, accounts, outs);
            a in after && after[a] == Credit(Get(loaded, a), outs[j])
    decreases |outs|
  {
    var last := |outs| - 1;
    OutputsLoadPrefix(ins, outs);
    if j < last {
      CreditedAt(loaded, accounts, ins, outs[..last], j);
    }
  }

  lemma PayeeRecord(verify: Verifier, l: Ledger, tx: SendTx, j: nat)
    requires Accepts(verify, l.accounts, tx) && j < |tx.outputs| && |tx.outputs[j].address| == 20
    ensures var a, l' := tx.outputs[j].address, Step(verify, l, tx, false);
            a in l'.accounts && l'.accounts[a] == Credit(Get(l.accounts, a), tx.outputs[j])
  {
    LocalIff(tx.outputs[j].address, tx.outputs[j].address);
    AcceptedAllNext(verify, l.accounts, tx);
    CreditedAt(l.accounts, Debited(l.accounts, tx.inputs), tx.inputs, tx.outputs, j);
  }

  /** The account keeps its key and sequence number and gains the coins in every denomination. */
  ghost predicate Receives(was: Account, o: TxOutput, after: Account) {
    && after.pubKey == was.pubKey && after.sequence == was.sequence
    && forall d :: Amount(after.balance, d) == Int64(Amount(was.balance, d) + Amount(o.coins, d))
  }

  lemma CreditReceives(acc: Account, o: TxOutput)
    requires GoodCoins(acc.balance) && GoodCoins(o.coins)
    ensures Receives(acc, o, Credit(acc, o))
  {
    forall d ensures Amount(Plus64(acc.balance, o.coins), d) == Int64(Amount(acc.balance, d) + Amount(o.coins, d)) {
      Plus64Amount(acc.balance, o.coins, d);
    }
  }

  /** Delivered, the account of a local output receives its coins; it is made if there was none. */
  lemma PayeeAfter(verify: Verifier, l: Ledger, tx: SendTx, j: nat)
    requires GoodBalances(l.accounts) && TypedTx(tx) && Accepts(verify, l.accounts, tx)
    requires j < |tx.outputs| && |tx.outputs[j].address| == 20
    ensures var a, l' := tx.outputs[j].address, Step(verify, l, tx, false);
            && a in l'.accounts
            && Receives(if a in l.accounts then l.accounts[a] else Account(None, 0, []), tx.outputs[j], l'.accounts[a])
  {
    PayeeRecord(verify, l, tx, j);
    AcceptedGood(verify, l.accounts, tx);
    GetGood(l.accounts, tx.outputs[j].address);
    CreditReceives(Get(l.accounts, tx.outputs[j].address), tx.outputs[j]);
  }

  /** The account is not among the inputs and, when delivered, not among the outputs. */
  ghost predicate Uninvolved(tx: SendTx, isCheckTx: bool, a: Bytes) {
    && (forall i :: 0 <= i < |tx.inputs| ==> tx.inputs[i].address != a)
    && (!isCheckTx ==>
          forall j :: 0 <= j < |tx.outputs| && |tx.outputs[j].address| == 20 ==> tx.outputs[j].address != a)
  }

  /** Nobody else's account changes, appears or vanishes; in checking no output is paid. */
  lemma OthersAfter(verify: Verifier, l: Ledger, tx: SendTx, isCheckTx: bool, a: Bytes)
    requires Accepts(verify, l.accounts, tx) && Uninvolved(tx, isCheckTx, a)
    ensures var l' := Step(verify, l, tx, isCheckTx);
            (a in l'.accounts <==> a in l.accounts) && (a in l.accounts ==> l'.accounts[a] == l.accounts[a])
  {
    DebitedElsewhere(l.accounts, tx.inputs, a);
    if !isCheckTx {
      if IsLocalOutput(tx.outputs, a) {
        var j :| 0 <= j < |tx.outputs| && Destination(tx.outputs[j].address) == Local(a);
        LocalIff(tx.outputs[j].address, a);
      }
      CreditedElsewhere(l.accounts, Debited(l.accounts, tx.inputs), tx.outputs, a);
    }
  }

  // ---------------------------------------------------------------------------------------------
  // Packets

  /** The packet is that of the output: the chain before the first slash, the address after it, and the coins. */
  ghost predicate IsPacketOf(p: Packet, o: TxOutput) {
    o.address == p.chain + [SLASH] + p.address && SLASH !in p.chain && |p.address| == 20 && p.coins == o.coins
  }

  ghost predicate Increasing(ks: seq<nat>, bound: nat) {
    && (forall i :: 0 <= i < |ks| ==> ks[i] < bound)
    && (forall i, j :: 0 <= i < j < |ks| ==> ks[i] < ks[j])
  }

  /** The packets are those of the outputs at positions `ks`, in order, and there is one for every remote output. */
  ghost predicate PacketsFor(ps: seq<Packet>, outs: seq<TxOutput>, ks: seq<nat>) {
    && |ps| == |ks| && Increasing(ks, |outs|)
    && (forall i :: 0 <= i < |ps| ==> IsPacketOf(ps[i], outs[ks[i]]))
    && (forall j :: 0 <= j < |outs| && WellFormed(outs[j].address) && |outs[j].address| != 20 ==> j in ks)
  }

  lemma OnePacketMore(ps: seq<Packet>, outs: seq<TxOutput>, ks: seq<nat>, p: Packet)
    requires outs != [] && PacketsFor(ps, outs[..|outs| - 1], ks) && IsPacketOf(p, outs[|outs| - 1])
    ensures PacketsFor(ps + [p], outs, ks + [|outs| - 1])
  {
    var n := |outs| - 1;
    forall j | 0 <= j < |outs| && WellFormed(outs[j].address) && |outs[j].address| != 20 ensures j in ks + [n] {
      assert j < n ==> outs[..n][j] == outs[j];
    }
  }

  lemma NoPacketMore(ps: seq<Packet>, outs: seq<TxOutput>, ks: seq<nat>)
    requires outs != [] && PacketsFor(ps, outs[..|outs| - 1], ks)
    requires !WellFormed(outs[|outs| - 1].address) || |outs[|outs| - 1].address| == 20
    ensures PacketsFor(ps, outs, ks)
  {
    var n := |outs| - 1;
    forall j | 0 <= j < |outs| && WellFormed(outs[j].address) && |outs[j].address| != 20 ensures j in ks {
      assert j < n && outs[..n][j] == outs[j];
    }
  }

  lemma {:induction false} PacketsAre(outs: seq<TxOutput>) returns (ks: seq<nat>)
    ensures PacketsFor(Packets(outs), outs, ks)
  {
    ks := [];
    if outs != [] {
      var n := |outs| - 1;
      var before := PacketsAre(outs[..n]);
      WellFormedIff(outs[n].address);
      match Destination(outs[n].address) {
        case Remote(chain, address) =>
          RemoteIff(outs[n].address, chain, address);
          OnePacketMore(Packets(outs[..n]), outs, before, Packet(chain, address, outs[n].coins));
          ks := before + [n];
        case _ =>
          NoPacketMore(Packets(outs[..n]), outs, before);
          assert Packets(outs[..n]) + [] == Packets(outs[..n]);
          ks := before;
      }
    }
  }

  /** An accepted payment adds the packets of its remote outputs, and no others. */
  lemma PacketsAfter(verify: Verifier, l: Ledger, tx: SendTx, isCheckTx: bool) returns (ps: seq<Packet>, ks: seq<nat>)
    requires Accepts(verify, l.accounts, tx)
    ensures Step(verify, l, tx, isCheckTx).packets == l.packets + ps && PacketsFor(ps, tx.outputs, ks)
  {
    ps := Packets(tx.outputs);
    ks := PacketsAre(tx.outputs);
  }

  ghost function SumPackets(ps: seq<Packet>, d: Bytes): int {
    if ps == [] then 0 else SumPackets(ps[..|ps| - 1], d) + Amount(ps[|ps| - 1].coins, d)
  }

  /** What leaves for other chains is what the new packets carry. */
  lemma {:induction false} PacketsCarryRemote(outs: seq<TxOutput>, d: Bytes)
    requires forall j :: 0 <= j < |outs| ==> OutputBasic(outs[j])
    ensures SumPackets(Packets(outs), d) == SumRemote(outs, d)
  {
    if outs != [] {
      var n := |outs| - 1;
      PacketsCarryRemote(outs[..n], d);
      assert OutputBasic(outs[n]);
      var before, more := Packets(outs[..n]), PacketOf(outs[n]);
      if more == [] {
        assert before + more == before;
      } else {
        assert (before + more)[..|before|] == before;
      }
    }
  }
}
