/** Execution of `SendTx` and `AppTx` on a ledger of accounts. */
module ExecTxs {
  import opened ByteOrder
  import opened MachineInts
  import opened Coins
  import opened Coins64

  datatype Account = Account(pubKey: Option<Bytes>, sequence: int, balance: Coins)
  type Accounts = map<Bytes, Account>
  /** Coins on their way to another chain. */
  datatype Packet = Packet(chain: Bytes, address: Bytes, coins: Coins)
  datatype Ledger = Ledger(accounts: Accounts, packets: seq<Packet>)

  datatype TxInput = TxInput(address: Bytes, coins: Coins, sequence: int, signature: Bytes, pubKey: Option<Bytes>)
  datatype TxOutput = TxOutput(address: Bytes, coins: Coins)
  datatype SendTx = SendTx(gas: int, fee: Coin, inputs: seq<TxInput>, outputs: seq<TxOutput>)

  /** Signature verification against the transaction's sign bytes. */
  type Verifier = (SendTx, Option<Bytes>, Bytes) -> bool

  const EMPTY_ACCOUNT: Account := Account(None, 0, [])
  const SLASH: byte := 47

  // ---------------------------------------------------------------------------------------------
  // Addresses

  datatype Dest = Malformed | Local(address: Bytes) | Remote(chain: Bytes, address: Bytes)

  /** The index of the first slash, or the length. */
  function SlashAt(a: Bytes): (n: nat)
    ensures n <= |a| && (n < |a| ==> a[n] == SLASH)
  {
    if a == [] || a[0] == SLASH then 0 else 1 + SlashAt(a[1..])
  }

  /** `ChainAndAddress`: longer addresses carry a chain id before the first slash. */
  function Destination(a: Bytes): Dest {
    if |a| > 20 then
      var n := SlashAt(a);
      if n == |a| || |a| - n - 1 != 20 then Malformed else Remote(a[..n], a[n + 1..])
    else if |a| != 20 then Malformed
    else Local(a)
  }

  // ---------------------------------------------------------------------------------------------
  // What is accepted

  ghost predicate InputBasic(i: TxInput) {
    && |i.address| == 20 && Valid(i.coins) && i.coins != [] && i.sequence > 0
    && (i.sequence == 1 ==> i.pubKey.Some?) && (i.sequence > 1 ==> i.pubKey.None?)
  }

  ghost predicate OutputBasic(o: TxOutput) {
    Destination(o.address) != Malformed && Valid(o.coins) && o.coins != []
  }

  /** The account with the public key that the input supplies. */
  function Keyed(acc: Account, i: TxInput): Account {
    if i.pubKey.Some? then acc.(pubKey := i.pubKey) else acc
  }

  /** Every input names a known account, no two the same. */
  ghost predicate InputsLoad(accounts: Accounts, ins: seq<TxInput>) {
    && (forall i :: 0 <= i < |ins| ==> ins[i].address in accounts)
    && (forall i, j :: 0 <= i < j < |ins| ==> ins[i].address != ins[j].address)
  }

  ghost predicate IsInput(ins: seq<TxInput>, a: Bytes) {
    exists i :: 0 <= i < |ins| && ins[i].address == a
  }

  ghost predicate IsLocalOutput(outs: seq<TxOutput>, a: Bytes) {
    exists j :: 0 <= j < |outs| && Destination(outs[j].address) == Local(a)
  }

  /** Local outputs go to pairwise different accounts that are not inputs. */
  ghost predicate OutputsLoad(ins: seq<TxInput>, outs: seq<TxOutput>) {
    && (forall j :: 0 <= j < |outs| && Destination(outs[j].address).Local? ==>
          !IsInput(ins, Destination(outs[j].address).address))
    && (forall i, j :: 0 <= i < j < |outs| && Destination(outs[i].address).Local? ==>
          Destination(outs[i].address) != Destination(outs[j].address))
  }

  /** The input carries the sequence number after the account's. */
  predicate IsNext(accounts: Accounts, i: TxInput) {
    i.address in accounts && Int64(accounts[i.address].sequence + 1) == i.sequence
  }

  predicate Covered(accounts: Accounts, i: TxInput) {
    i.address in accounts && IsGTE64(accounts[i.address].balance, i.coins)
  }

  predicate Signed(verify: Verifier, tx: SendTx, accounts: Accounts, i: TxInput) {
    i.address in accounts && verify(tx, Keyed(accounts[i.address], i).pubKey, i.signature)
  }

  function TotalIn(ins: seq<TxInput>): Coins {
    if ins == [] then [] else Plus64(TotalIn(ins[..|ins| - 1]), ins[|ins| - 1].coins)
  }

  function TotalOut(outs: seq<TxOutput>): Coins {
    if outs == [] then [] else Plus64(TotalOut(outs[..|outs| - 1]), outs[|outs| - 1].coins)
  }

  function OutPlusFees(tx: SendTx): Coins {
    if tx.fee.amount != 0 then Plus64(TotalOut(tx.outputs), [tx.fee]) else TotalOut(tx.outputs)
  }

  ghost predicate Accepts(verify: Verifier, accounts: Accounts, tx: SendTx) {
    && (forall i {:trigger InputBasic(tx.inputs[i])} :: 0 <= i < |tx.inputs| ==> InputBasic(tx.inputs[i]))
    && (forall j {:trigger OutputBasic(tx.outputs[j])} :: 0 <= j < |tx.outputs| ==> OutputBasic(tx.outputs[j]))
    && InputsLoad(accounts, tx.inputs) && OutputsLoad(tx.inputs, tx.outputs)
    && (forall i {:trigger IsNext(accounts, tx.inputs[i])} :: 0 <= i < |tx.inputs| ==> IsNext(accounts, tx.inputs[i]))
    && (forall i {:trigger Covered(accounts, tx.inputs[i])} :: 0 <= i < |tx.inputs| ==> Covered(accounts, tx.inputs[i]))
    && (forall i {:trigger Signed(verify, tx, accounts, tx.inputs[i])} :: 0 <= i < |tx.inputs| ==>
          Signed(verify, tx, accounts, tx.inputs[i]))
    && TotalIn(tx.inputs) == OutPlusFees(tx)
  }

  // ---------------------------------------------------------------------------------------------
  // What an accepted transaction does

  function Debit(acc: Account, i: TxInput): Account {
    Keyed(acc, i).(balance := Minus64(acc.balance, i.coins), sequence := Int64(acc.sequence + 1))
  }

  function Credit(acc: Account, o: TxOutput): Account {
    acc.(balance := Plus64(acc.balance, o.coins))
  }

  function Get(accounts: Accounts, a: Bytes): Account {
    if a in accounts then accounts[a] else EMPTY_ACCOUNT
  }

  ghost function Debited(accounts: Accounts, ins: seq<TxInput>): Accounts {
    if ins == [] then accounts
    else
      var i := ins[|ins| - 1];
      Debited(accounts, ins[..|ins| - 1])[i.address := Debit(Get(accounts, i.address), i)]
  }

  /** `loaded` are the accounts as they were before the transaction. */
  ghost function Credited(loaded: Accounts, accounts: Accounts, outs: seq<TxOutput>): Accounts {
    if outs == [] then accounts
    else
      var o, rest := outs[|outs| - 1], Credited(loaded, accounts, outs[..|outs| - 1]);
      match Destination(o.address)
      case Local(a) => rest[a := Credit(Get(loaded, a), o)]
      case _ => rest
  }

  function PacketOf(o: TxOutput): seq<Packet> {
    match Destination(o.address)
    case Remote(c, a) => [Packet(c, a, o.coins)]
    case _ => []
  }

  function Packets(outs: seq<TxOutput>): seq<Packet> {
    if outs == [] then [] else Packets(outs[..|outs| - 1]) + PacketOf(outs[|outs| - 1])
  }

  ghost function Effect(l: Ledger, tx: SendTx, isCheckTx: bool): Ledger {
    var debited := Debited(l.accounts, tx.inputs);
    Ledger(if isCheckTx then debited else Credited(l.accounts, debited, tx.outputs), l.packets + Packets(tx.outputs))
  }

  // ---------------------------------------------------------------------------------------------
  // Sums over all accounts

  /** The sum of all accounts' amounts of a denomination. */
  ghost function Total(accounts: Accounts, d: Bytes): int
    decreases |accounts|
  {
    if accounts == map[] then 0
    else
      var a :| a in accounts;
      assert |accounts - {a}| < |accounts| by { Smaller(accounts, a); }
      Amount(accounts[a].balance, d) + Total(accounts - {a}, d)
  }

  lemma Smaller(accounts: Accounts, a: Bytes)
    requires a in accounts
    ensures |accounts - {a}| == |accounts| - 1
  {
    assert (accounts - {a}).Keys == accounts.Keys - {a};
  }

  lemma {:induction false} TotalWithout(accounts: Accounts, a: Bytes, d: Bytes)
    requires a in accounts
    ensures Total(accounts, d) == Amount(accounts[a].balance, d) + Total(accounts - {a}, d)
    decreases |accounts|
  {
    var b :| b in accounts && Total(accounts, d) == Amount(accounts[b].balance, d) + Total(accounts - {b}, d);
    if a != b {
      Smaller(accounts, a);
      Smaller(accounts, b);
      TotalWithout(accounts - {b}, a, d);
      TotalWithout(accounts - {a}, b, d);
      assert accounts - {a} - {b} == accounts - {b} - {a};
    }
  }

  lemma TotalUpdate(accounts: Accounts, a: Bytes, acc: Account, d: Bytes)
    ensures Total(accounts[a := acc], d) == Total(accounts, d) - Amount(Get(accounts, a).balance,
                                                                        d) + Amount(acc.balance, d)
  {
    TotalWithout(accounts[a := acc], a, d);
    if a in accounts {
      TotalWithout(accounts, a, d);
      assert accounts[a := acc] - {a} == accounts - {a};
    } else {
      assert accounts[a := acc] - {a} == accounts;
    }
  }

  // ---------------------------------------------------------------------------------------------
  // Conservation

  /** Balances are sorted lists of `int64` amounts. */
  ghost predicate GoodBalances(accounts: Accounts) {
    forall a :: a in accounts ==> GoodCoins(accounts[a].balance)
  }

  ghost predicate GoodCoins(c: Coins) {
    Sorted(c) && Typed(c)
  }

  ghost predicate GoodInputs(ins: seq<TxInput>) {
    forall i :: 0 <= i < |ins| ==> GoodCoins(ins[i].coins)
  }

  ghost predicate GoodOutputs(outs: seq<TxOutput>) {
    forall j :: 0 <= j < |outs| ==> GoodCoins(outs[j].coins)
  }

  ghost function SumIn(ins: seq<TxInput>, d: Bytes): int {
    if ins == [] then 0 else SumIn(ins[..|ins| - 1], d) + Amount(ins[|ins| - 1].coins, d)
  }

  ghost function SumOut(outs: seq<TxOutput>, d: Bytes): int {
    if outs == [] then 0 else SumOut(outs[..|outs| - 1], d) + Amount(outs[|outs| - 1].coins, d)
  }

  ghost function LocalAmount(o: TxOutput, d: Bytes): int {
    if Destination(o.address).Local? then Amount(o.coins, d) else 0
  }

  ghost function SumLocal(outs: seq<TxOutput>, d: Bytes): int {
    if outs == [] then 0 else SumLocal(outs[..|outs| - 1], d) + LocalAmount(outs[|outs| - 1], d)
  }

  /** What leaves for other chains. */
  ghost function SumRemote(outs: seq<TxOutput>, d: Bytes): int {
    SumOut(outs, d) - SumLocal(outs, d)
  }

  ghost function FeeOf(tx: SendTx, d: Bytes): int {
    if d == tx.fee.denom then tx.fee.amount else 0
  }

  /** Adding to a wrapped sum. */
  lemma RunningSum(sum: int, wrapped: int, x: int)
    requires wrapped == Int64(sum)
    ensures Int64(wrapped + x) == Int64(sum + x)
  {
    Int64Sum(sum, x);
  }

  lemma SameWord(x: int, y: int)
    requires Int64(x) == Int64(y)
    ensures x == y + WORD * (Wraps(y) - Wraps(x))
  {
    Int64Wraps(x);
    Int64Wraps(y);
  }

  lemma FitsDoesNotWrap(x: int)
    requires IsInt64(x)
    ensures Wraps(x) == 0
  {
    Int64Wraps(x);
    Int64Range(x);
  }

  /** Adding to a wrapped total. */
  lemma AddToTotal(total: Coins, more: Coins, d: Bytes, sum: int)
    requires GoodCoins(total) && GoodCoins(more) && Amount(total, d) == Int64(sum)
    ensures GoodCoins(Plus64(total, more)) && Amount(Plus64(total, more), d) == Int64(sum + Amount(more, d))
  {
    Plus64Good(total, more);
    Plus64Amount(total, more, d);
    RunningSum(sum, Amount(total, d), Amount(more, d));
  }

  lemma {:induction false} TotalInGood(ins: seq<TxInput>, d: Bytes)
    requires GoodInputs(ins)
    ensures GoodCoins(TotalIn(ins)) && Amount(TotalIn(ins), d) == Int64(SumIn(ins, d))
  {
    if ins == [] {
      Int64Range(0);
    } else {
      var rest := ins[..|ins| - 1];
      TotalInGood(rest, d);
      AddToTotal(TotalIn(rest), ins[|ins| - 1].coins, d, SumIn(rest, d));
    }
  }

  lemma {:induction false} TotalOutGood(outs: seq<TxOutput>, d: Bytes)
    requires GoodOutputs(outs)
    ensures GoodCoins(TotalOut(outs)) && Amount(TotalOut(outs), d) == Int64(SumOut(outs, d))
  {
    if outs == [] {
      Int64Range(0);
    } else {
      var rest := outs[..|outs| - 1];
      TotalOutGood(rest, d);
      AddToTotal(TotalOut(rest), outs[|outs| - 1].coins, d, SumOut(rest, d));
    }
  }

  lemma SingleAmount(c: Coin, d: Bytes)
    ensures Sorted([c]) && Amount([c], d) == if d == c.denom then c.amount else 0
  {
    assert [c][1..] == [];
  }

  lemma OutPlusFeesAmount(tx: SendTx, d: Bytes)
    requires GoodOutputs(tx.outputs) && IsInt64(tx.fee.amount)
    ensures Amount(OutPlusFees(tx), d) == Int64(SumOut(tx.outputs, d) + FeeOf(tx, d))
  {
    TotalOutGood(tx.outputs, d);
    if tx.fee.amount != 0 {
      SingleAmount(tx.fee, d);
      AddToTotal(TotalOut(tx.outputs), [tx.fee], d, SumOut(tx.outputs, d));
    } else {
      assert SumOut(tx.outputs, d) + FeeOf(tx, d) == SumOut(tx.outputs, d);
    }
  }

  /** By how many words the two sides of the balance test differ. */
  ghost function SideCarries(tx: SendTx, d: Bytes): int {
    Wraps(SumOut(tx.outputs, d) + FeeOf(tx, d)) - Wraps(SumIn(tx.inputs, d))
  }

  /** Inputs balance outputs and fee, up to whole words. */
  lemma SidesBalance(tx: SendTx, d: Bytes)
    requires GoodInputs(tx.inputs) && GoodOutputs(tx.outputs) && IsInt64(tx.fee.amount)
    requires TotalIn(tx.inputs) == OutPlusFees(tx)
    ensures SumIn(tx.inputs, d) == SumOut(tx.outputs, d) + FeeOf(tx, d) + WORD * SideCarries(tx, d)
  {
    TotalInGood(tx.inputs, d);
    OutPlusFeesAmount(tx, d);
    SameWord(SumIn(tx.inputs, d), SumOut(tx.outputs, d) + FeeOf(tx, d));
  }

  /** Debiting account `a` does not touch others. */
  lemma {:induction false} DebitedElsewhere(accounts: Accounts, ins: seq<TxInput>, a: Bytes)
    requires !IsInput(ins, a)
    ensures a in Debited(accounts, ins) <==> a in accounts
    ensures a in accounts ==> Debited(accounts, ins)[a] == accounts[a]
  {
    if ins != [] {
      assert ins[|ins| - 1].address != a;
      assert !IsInput(ins[..|ins| - 1], a) by {
        var rest := ins[..|ins| - 1];
        forall i | 0 <= i < |rest| ensures rest[i].address != a {
          assert rest[i] == ins[i];
        }
      }
      DebitedElsewhere(accounts, ins[..|ins| - 1], a);
    }
  }

  /** No debit overflows. */
  ghost predicate DebitsFit(accounts: Accounts, ins: seq<TxInput>, d: Bytes) {
    forall i :: 0 <= i < |ins| ==> IsInt64(Amount(Get(accounts, ins[i].address).balance, d) - Amount(ins[i].coins, d))
  }

  /** No credit overflows. */
  ghost predicate CreditsFit(accounts: Accounts, outs: seq<TxOutput>, d: Bytes) {
    forall j :: 0 <= j < |outs| && Destination(outs[j].address).Local? ==>
      IsInt64(Amount(Get(accounts, Destination(outs[j].address).address).balance, d) + Amount(outs[j].coins, d))
  }

  lemma GetGood(accounts: Accounts, a: Bytes)
    requires GoodBalances(accounts)
    ensures GoodCoins(Get(accounts, a).balance)
  {
  }

  ghost function DebitCarry(accounts: Accounts, i: TxInput, d: Bytes): int {
    Wraps(Amount(Get(accounts, i.address).balance, d) - Amount(i.coins, d))
  }

  ghost function DebitCarries(accounts: Accounts, ins: seq<TxInput>, d: Bytes): int {
    if ins == [] then 0 else DebitCarries(accounts, ins[..|ins| - 1], d) + DebitCarry(accounts, ins[|ins| - 1], d)
  }

  ghost function CreditCarry(accounts: Accounts, o: TxOutput, d: Bytes): int {
    match Destination(o.address)
    case Local(a) => Wraps(Amount(Get(accounts, a).balance, d) + Amount(o.coins, d))
    case _ => 0
  }

  ghost function CreditCarries(accounts: Accounts, outs: seq<TxOutput>, d: Bytes): int {
    if outs == [] then 0 else CreditCarries(accounts, outs[..|outs| - 1], d) + CreditCarry(accounts, outs[|outs| - 1],
                                                                                           d)
  }

  lemma DebitWords(accounts: Accounts, i: TxInput, d: Bytes)
    requires GoodBalances(accounts) && GoodCoins(i.coins)
    ensures var acc := Get(accounts, i.address);
            Amount(Debit(acc, i).balance, d) == Amount(acc.balance, d) - Amount(i.coins,
                                                                                d) + WORD * DebitCarry(accounts, i, d)
  {
    var acc := Get(accounts, i.address);
    GetGood(accounts, i.address);
    Minus64Amount(acc.balance, i.coins, d);
    Int64Wraps(Amount(acc.balance, d) - Amount(i.coins, d));
  }

  lemma CreditWords(accounts: Accounts, o: TxOutput, d: Bytes)
    requires GoodBalances(accounts) && GoodCoins(o.coins) && Destination(o.address).Local?
    ensures var acc := Get(accounts, Destination(o.address).address);
            Amount(Credit(acc, o).balance, d) == Amount(acc.balance, d) + Amount(o.coins,
                                                                                 d) + WORD * CreditCarry(accounts, o, d)
  {
    var a := Destination(o.address).address;
    var acc := Get(accounts, a);
    GetGood(accounts, a);
    Plus64Amount(acc.balance, o.coins, d);
    Int64Wraps(Amount(acc.balance, d) + Amount(o.coins, d));
  }

  lemma LastDistinct(ins: seq<TxInput>)
    requires ins != [] && forall i, j :: 0 <= i < j < |ins| ==> ins[i].address != ins[j].address
    ensures !IsInput(ins[..|ins| - 1], ins[|ins| - 1].address)
  {
    var rest := ins[..|ins| - 1];
    forall i | 0 <= i < |rest| ensures rest[i].address != ins[|ins| - 1].address {
      assert rest[i] == ins[i];
    }
  }

  lemma {:induction false} DebitedTotal(accounts: Accounts, ins: seq<TxInput>, d: Bytes)
    requires GoodBalances(accounts) && GoodInputs(ins) && InputsLoad(accounts, ins)
    ensures Total(Debited(accounts, ins), d) == Total(accounts, d) - SumIn(ins, d) + WORD * DebitCarries(accounts,
                                                                                                         ins, d)
  {
    if ins != [] {
      var rest, last := ins[..|ins| - 1], ins[|ins| - 1];
      DebitedTotal(accounts, rest, d);
      LastDistinct(ins);
      DebitedElsewhere(accounts, rest, last.address);
      TotalUpdate(Debited(accounts, rest), last.address, Debit(Get(accounts, last.address), last), d);
      DebitWords(accounts, last, d);
    }
  }

  lemma {:induction false} CreditedElsewhere(loaded: Accounts, accounts: Accounts, outs: seq<TxOutput>, a: Bytes)
    requires !IsLocalOutput(outs, a)
    ensures a in Credited(loaded, accounts, outs) <==> a in accounts
    ensures a in accounts ==> Credited(loaded, accounts, outs)[a] == accounts[a]
  {
    if outs != [] {
      assert Destination(outs[|outs| - 1].address) != Local(a);
      assert !IsLocalOutput(outs[..|outs| - 1], a) by {
        var rest := outs[..|outs| - 1];
        forall j | 0 <= j < |rest| ensures Destination(rest[j].address) != Local(a) {
          assert rest[j] == outs[j];
        }
      }
      CreditedElsewhere(loaded, accounts, outs[..|outs| - 1], a);
    }
  }

  lemma OutputsLoadPrefix(ins: seq<TxInput>, outs: seq<TxOutput>)
    requires outs != [] && OutputsLoad(ins, outs)
    ensures OutputsLoad(ins, outs[..|outs| - 1])
    ensures Destination(outs[|outs| - 1].address).Local? ==>
              !IsLocalOutput(outs[..|outs| - 1], Destination(outs[|outs| - 1].address).address) &&
              !IsInput(ins, Destination(outs[|outs| - 1].address).address)
  {
    var rest := outs[..|outs| - 1];
    assert forall j :: 0 <= j < |rest| ==> rest[j] == outs[j];
    var dest := Destination(outs[|outs| - 1].address);
    if dest.Local? {
      forall j | 0 <= j < |rest| ensures Destination(rest[j].address) != dest {
        assert rest[j] == outs[j];
      }
    }
  }

  lemma {:induction false} CreditedTotal(accounts: Accounts, ins: seq<TxInput>, outs: seq<TxOutput>, d: Bytes)
    requires GoodBalances(accounts) && GoodOutputs(outs) && OutputsLoad(ins, outs)
    ensures var debited := Debited(accounts, ins);
            Total(Credited(accounts, debited, outs), d) ==
            Total(debited, d) + SumLocal(outs, d) + WORD * CreditCarries(accounts, outs, d)
    decreases |outs|
  {
    if outs != [] {
      var debited, rest, last := Debited(accounts, ins), outs[..|outs| - 1], outs[|outs| - 1];
      OutputsLoadPrefix(ins, outs);
      CreditedTotal(accounts, ins, rest, d);
      match Destination(last.address)
      case Local(a) =>
        DebitedElsewhere(accounts, ins, a);
        CreditedElsewhere(accounts, debited, rest, a);
        TotalUpdate(Credited(accounts, debited, rest), a, Credit(Get(accounts, a), last), d);
        CreditWords(accounts, last, d);
      case _ =>
    }
  }

  /** The amounts of the transaction are `int64` values. */
  ghost predicate TypedTx(tx: SendTx) {
    && (forall i :: 0 <= i < |tx.inputs| ==> Typed(tx.inputs[i].coins))
    && (forall j :: 0 <= j < |tx.outputs| ==> Typed(tx.outputs[j].coins))
    && IsInt64(tx.fee.amount)
  }

  /** No sum that the transaction forms for a denomination overflows. */
  ghost predicate NoOverflow(accounts: Accounts, tx: SendTx, d: Bytes) {
    && DebitsFit(accounts, tx.inputs, d) && CreditsFit(accounts, tx.outputs, d)
    && IsInt64(SumIn(tx.inputs, d)) && IsInt64(SumOut(tx.outputs, d) + FeeOf(tx, d))
  }

  /** The words that overflows add to the sum of all balances, known before execution. */
  ghost function Carries(accounts: Accounts, tx: SendTx, d: Bytes): int {
    DebitCarries(accounts, tx.inputs, d) + CreditCarries(accounts, tx.outputs, d) - SideCarries(tx, d)
  }

  /** Every accepted delivered transaction lowers the sum of all balances by the fee and the coins sent
      to other chains, always modulo 2^64 and exactly if and only if the carries cancel. */
  lemma SendConserves(verify: Verifier, l: Ledger, tx: SendTx, d: Bytes)
    requires GoodBalances(l.accounts) && TypedTx(tx) && Accepts(verify, l.accounts, tx)
    ensures Total(Effect(l, tx, false).accounts, d) ==
            Total(l.accounts, d) - FeeOf(tx, d) - SumRemote(tx.outputs, d) + WORD * Carries(l.accounts, tx, d)
    ensures Total(Effect(l, tx, false).accounts, d) == Total(l.accounts, d) - FeeOf(tx, d) - SumRemote(tx.outputs,
                                                                                                       d) <==>
            Carries(l.accounts, tx, d) == 0
  {
    AcceptedGood(verify, l.accounts, tx);
    SidesBalance(tx, d);
    DebitedTotal(l.accounts, tx.inputs, d);
    CreditedTotal(l.accounts, tx.inputs, tx.outputs, d);
  }

  lemma {:induction false} DebitsFitCarryNothing(accounts: Accounts, ins: seq<TxInput>, d: Bytes)
    requires DebitsFit(accounts, ins, d)
    ensures DebitCarries(accounts, ins, d) == 0
  {
    if ins != [] {
      var rest, last := ins[..|ins| - 1], ins[|ins| - 1];
      assert forall i :: 0 <= i < |rest| ==> rest[i] == ins[i];
      DebitsFitCarryNothing(accounts, rest, d);
      FitsDoesNotWrap(Amount(Get(accounts, last.address).balance, d) - Amount(last.coins, d));
    }
  }

  lemma {:induction false} CreditsFitCarryNothing(accounts: Accounts, outs: seq<TxOutput>, d: Bytes)
    requires CreditsFit(accounts, outs, d)
    ensures CreditCarries(accounts, outs, d) == 0
  {
    if outs != [] {
      var rest, last := outs[..|outs| - 1], outs[|outs| - 1];
      assert forall j :: 0 <= j < |rest| ==> rest[j] == outs[j];
      CreditsFitCarryNothing(accounts, rest, d);
      match Destination(last.address)
      case Local(a) => FitsDoesNotWrap(Amount(Get(accounts, a).balance, d) + Amount(last.coins, d));
      case _ =>
    }
  }

  lemma OneCoinCovers(c: Coin)
    requires 0 < c.amount && IsInt64(c.amount)
    ensures IsGTE64([c], [c])
  {
    var minus := [Coin(c.denom, -c.amount)];
    assert [c][1..] == [] && minus[1..] == [];
    assert Negative64([c]) == minus;
    assert Plus64([c], minus) == [] + Plus64([], []);
  }

  /** Spending a whole one-coin account with its first transaction. */
  lemma OneCoinAccepted(verify: Verifier, accounts: Accounts, tx: SendTx, i: TxInput, o: TxOutput, c: Coin)
    requires tx.inputs == [i] && tx.outputs == [o] && tx.fee.amount == 0
    requires i.coins == [c] && o.coins == [c] && 0 < c.amount && IsInt64(c.amount)
    requires |i.address| == 20 && |o.address| == 20 && i.address != o.address
    requires i.address in accounts && accounts[i.address].sequence == 0 && accounts[i.address].balance == [c]
    requires i.sequence == 1 && i.pubKey.Some? && verify(tx, i.pubKey, i.signature)
    ensures Accepts(verify, accounts, tx)
  {
    OneCoinCovers(c);
    assert Destination(o.address) == Local(o.address);
    assert tx.inputs[..0] == [] && tx.outputs[..0] == [];
    assert Covered(accounts, i);
    assert Signed(verify, tx, accounts, i);
    assert IsNext(accounts, i);
    assert Valid([c]);
    assert TotalIn(tx.inputs) == Plus64(TotalIn([]), [c]) == [c];
    assert TotalOut(tx.outputs) == Plus64(TotalOut([]), [c]) == [c];
  }

  /** The sum need not be conserved: a credit to a full balance wraps around and loses a word. */
  lemma OverflowLosesCoins() returns (verify: Verifier, accounts: Accounts, tx: SendTx, d: Bytes)
    ensures GoodBalances(accounts) && TypedTx(tx) && Accepts(verify, accounts, tx) && Carries(accounts, tx, d) != 0
  {
    var payer: Bytes, payee: Bytes := seq(20, _ => 1), seq(20, _ => 2);
    assert payer[0] != payee[0];
    d := [97];
    var one, full := [Coin(d, 1)], [Coin(d, 0x7fff_ffff_ffff_ffff)];
    verify := (_, _, _) => true;
    accounts := map[payer := Account(None, 0, one), payee := Account(None, 0, full)];
    var i, o := TxInput(payer, one, 1, [], Some([])), TxOutput(payee, one);
    tx := SendTx(0, Coin([], 0), [i], [o]);
    OneCoinAccepted(verify, accounts, tx, i, o, one[0]);
    assert tx.inputs[..0] == [] && tx.outputs[..0] == [];
    SingleAmount(one[0], d);
    SingleAmount(full[0], d);
    assert FeeOf(tx, d) == 0;
    assert DebitCarries(accounts, tx.inputs, d) == DebitCarry(accounts, i, d) == Wraps(0) == 0;
    assert CreditCarries(accounts, tx.outputs, d) == CreditCarry(accounts, o, d) == Wraps(0x8000_0000_0000_0000) == -1;
    assert SumIn(tx.inputs, d) == 1;
    assert SumOut(tx.outputs, d) == SumOut([], d) + Amount(o.coins, d) == 1;
  }

  /** Without overflow nothing is carried. */
  lemma NoOverflowConserves(accounts: Accounts, tx: SendTx, d: Bytes)
    requires NoOverflow(accounts, tx, d)
    ensures Carries(accounts, tx, d) == 0
  {
    DebitsFitCarryNothing(accounts, tx.inputs, d);
    CreditsFitCarryNothing(accounts, tx.outputs, d);
    FitsDoesNotWrap(SumIn(tx.inputs, d));
    FitsDoesNotWrap(SumOut(tx.outputs, d) + FeeOf(tx, d));
  }

  // ---------------------------------------------------------------------------------------------
  // Whole runs

  lemma {:induction false} DebitedGood(accounts: Accounts, ins: seq<TxInput>)
    requires GoodBalances(accounts) && GoodInputs(ins)
    ensures GoodBalances(Debited(accounts, ins))
  {
    if ins != [] {
      var last := ins[|ins| - 1];
      DebitedGood(accounts, ins[..|ins| - 1]);
      GetGood(accounts, last.address);
      Minus64Good(Get(accounts, last.address).balance, last.coins);
    }
  }

  lemma {:induction false} CreditedGood(loaded: Accounts, accounts: Accounts, outs: seq<TxOutput>)
    requires GoodBalances(loaded) && GoodBalances(accounts) && GoodOutputs(outs)
    ensures GoodBalances(Credited(loaded, accounts, outs))
  {
    if outs != [] {
      var last := outs[|outs| - 1];
      CreditedGood(loaded, accounts, outs[..|outs| - 1]);
      match Destination(last.address)
      case Local(a) =>
        GetGood(loaded, a);
        Plus64Good(Get(loaded, a).balance, last.coins);
      case _ =>
    }
  }

  lemma AcceptedGood(verify: Verifier, accounts: Accounts, tx: SendTx)
    requires TypedTx(tx) && Accepts(verify, accounts, tx)
    ensures GoodInputs(tx.inputs) && GoodOutputs(tx.outputs)
  {
    forall i | 0 <= i < |tx.inputs| ensures GoodCoins(tx.inputs[i].coins) {
      assert InputBasic(tx.inputs[i]);
    }
    forall j | 0 <= j < |tx.outputs| ensures GoodCoins(tx.outputs[j].coins) {
      assert OutputBasic(tx.outputs[j]);
    }
  }

  lemma EffectGood(verify: Verifier, l: Ledger, tx: SendTx, isCheckTx: bool)
    requires GoodBalances(l.accounts) && TypedTx(tx) && Accepts(verify, l.accounts, tx)
    ensures GoodBalances(Effect(l, tx, isCheckTx).accounts)
  {
    AcceptedGood(verify, l.accounts, tx);
    DebitedGood(l.accounts, tx.inputs);
    CreditedGood(l.accounts, Debited(l.accounts, tx.inputs), tx.outputs);
  }

  /** A rejected transaction changes nothing. */
  ghost function Step(verify: Verifier, l: Ledger, tx: SendTx, isCheckTx: bool): Ledger {
    if Accepts(verify, l.accounts, tx) then Effect(l, tx, isCheckTx) else l
  }

  ghost function Run(verify: Verifier, l: Ledger, txs: seq<SendTx>): Ledger
    decreases |txs|
  {
    if txs == [] then l else Run(verify, Step(verify, l, txs[0], false), txs[1..])
  }

  /** Fees and remote outputs of the accepted transactions of a run. */
  ghost function Outflow(verify: Verifier, l: Ledger, txs: seq<SendTx>, d: Bytes): int
    decreases |txs|
  {
    if txs == [] then 0
    else
      (if Accepts(verify, l.accounts, txs[0]) then FeeOf(txs[0], d) + SumRemote(txs[0].outputs, d) else 0)
      + Outflow(verify, Step(verify, l, txs[0], false), txs[1..], d)
  }

  ghost function RunCarries(verify: Verifier, l: Ledger, txs: seq<SendTx>, d: Bytes): int
    decreases |txs|
  {
    if txs == [] then 0
    else
      (if Accepts(verify, l.accounts, txs[0]) then Carries(l.accounts, txs[0], d) else 0)
      + RunCarries(verify, Step(verify, l, txs[0], false), txs[1..], d)
  }

  /** Over any run of transactions, accepted or not, the sum of all balances falls by the outflow. */
  lemma {:induction false} RunConserves(verify: Verifier, l: Ledger, txs: seq<SendTx>, d: Bytes)
    requires GoodBalances(l.accounts) && forall i :: 0 <= i < |txs| ==> TypedTx(txs[i])
    ensures GoodBalances(Run(verify, l, txs).accounts)
    ensures Total(Run(verify, l, txs).accounts, d) ==
            Total(l.accounts, d) - Outflow(verify, l, txs, d) + WORD * RunCarries(verify, l, txs, d)
    decreases |txs|
  {
    if txs != [] {
      if Accepts(verify, l.accounts, txs[0]) {
        SendConserves(verify, l, txs[0], d);
        EffectGood(verify, l, txs[0], false);
      }
      RunConserves(verify, Step(verify, l, txs[0], false), txs[1..], d);
    }
  }

  // ---------------------------------------------------------------------------------------------
  // Replay

  /** The sequence number of an address, zero if it has no account. */
  function SequenceOf(accounts: Accounts, a: Bytes): int {
    Get(accounts, a).sequence
  }

  ghost predicate GoodSequences(accounts: Accounts) {
    forall a :: a in accounts ==> 0 <= accounts[a].sequence && IsInt64(accounts[a].sequence)
  }

  lemma {:induction false} DebitedSequence(accounts: Accounts, ins: seq<TxInput>, i: nat)
    requires InputsLoad(accounts, ins) && i < |ins|
    ensures ins[i].address in Debited(accounts, ins)
    ensures Debited(accounts, ins)[ins[i].address] == Debit(accounts[ins[i].address], ins[i])
    decreases |ins|
  {
    var n := |ins| - 1;
    if i < n {
      assert ins[..n][i] == ins[i];
      DebitedSequence(accounts, ins[..n], i);
    }
  }

  lemma {:induction false} CreditedSequence(accounts: Accounts, ins: seq<TxInput>, outs: seq<TxOutput>, a: Bytes)
    requires OutputsLoad(ins, outs)
    ensures SequenceOf(Credited(accounts, Debited(accounts, ins), outs), a) == SequenceOf(Debited(accounts, ins), a)
    decreases |outs|
  {
    if outs != [] {
      OutputsLoadPrefix(ins, outs);
      CreditedSequence(accounts, ins, outs[..|outs| - 1], a);
      match Destination(outs[|outs| - 1].address)
      case Local(b) => DebitedElsewhere(accounts, ins, b);
      case _ =>
    }
  }

  /** Every input carries the next sequence number of its account. */
  ghost predicate AllNext(accounts: Accounts, ins: seq<TxInput>) {
    InputsLoad(accounts, ins) && forall i :: 0 <= i < |ins| ==> IsNext(accounts, ins[i]) && ins[i].sequence > 0
  }

  lemma AcceptedAllNext(verify: Verifier, accounts: Accounts, tx: SendTx)
    requires Accepts(verify, accounts, tx)
    ensures AllNext(accounts, tx.inputs) && OutputsLoad(tx.inputs, tx.outputs)
  {
    forall i | 0 <= i < |tx.inputs| ensures IsNext(accounts, tx.inputs[i]) && tx.inputs[i].sequence > 0 {
      assert InputBasic(tx.inputs[i]);
    }
  }

  /** The sequence numbers of a transaction's inputs from one address. */
  function InputSequences(ins: seq<TxInput>, a: Bytes): seq<int> {
    if ins == [] then []
    else InputSequences(ins[..|ins| - 1], a) + (if ins[|ins| - 1].address == a then [ins[|ins| - 1].sequence] else [])
  }

  lemma {:induction false} InputSequencesOf(ins: seq<TxInput>, a: Bytes, s: int)
    requires forall i, j :: 0 <= i < j < |ins| ==> ins[i].address != ins[j].address
    requires forall i :: 0 <= i < |ins| && ins[i].address == a ==> ins[i].sequence == s
    ensures InputSequences(ins, a) == if IsInput(ins, a) then [s] else []
  {
    if ins != [] {
      var n := |ins| - 1;
      var rest := ins[..n];
      assert forall i :: 0 <= i < n ==> rest[i] == ins[i];
      InputSequencesOf(rest, a, s);
      if ins[n].address == a {
        LastDistinct(ins);
      } else if i :| 0 <= i < |ins| && ins[i].address == a {
        assert rest[i].address == a;
      }
    }
  }

  lemma AllNextSequences(accounts: Accounts, ins: seq<TxInput>, a: Bytes)
    requires GoodSequences(accounts) && AllNext(accounts, ins)
    ensures InputSequences(ins, a) == if IsInput(ins, a) then [SequenceOf(accounts, a) + 1] else []
  {
    forall i | 0 <= i < |ins| && ins[i].address == a ensures ins[i].sequence == SequenceOf(accounts, a) + 1 {
      assert IsNext(accounts, ins[i]);
      NextSequence(accounts[a].sequence);
    }
    InputSequencesOf(ins, a, SequenceOf(accounts, a) + 1);
  }

  /** An accepted transaction advances the sequence number of every input by one and of no other address. */
  lemma AcceptedAdvances(l: Ledger, tx: SendTx, isCheckTx: bool, a: Bytes)
    requires GoodSequences(l.accounts) && AllNext(l.accounts, tx.inputs) && OutputsLoad(tx.inputs, tx.outputs)
    ensures SequenceOf(Effect(l, tx, isCheckTx).accounts, a) ==
            SequenceOf(l.accounts, a) + if IsInput(tx.inputs, a) then 1 else 0
    ensures IsInput(tx.inputs, a) ==> IsInt64(SequenceOf(l.accounts, a) + 1)
  {
    CreditedSequence(l.accounts, tx.inputs, tx.outputs, a);
    DebitedSequenceOf(l.accounts, tx.inputs, a);
  }

  lemma DebitedSequenceOf(accounts: Accounts, ins: seq<TxInput>, a: Bytes)
    requires GoodSequences(accounts) && AllNext(accounts, ins)
    ensures SequenceOf(Debited(accounts, ins), a) == SequenceOf(accounts, a) + if IsInput(ins, a) then 1 else 0
    ensures IsInput(ins, a) ==> IsInt64(SequenceOf(accounts, a) + 1)
  {
    if i :| 0 <= i < |ins| && ins[i].address == a {
      assert IsNext(accounts, ins[i]);
      NextSequence(accounts[a].sequence);
      DebitedSequence(accounts, ins, i);
    } else {
      DebitedElsewhere(accounts, ins, a);
    }
  }

  /** The wrapped successor is positive only if it did not wrap. */
  lemma NextSequence(s: int)
    requires 0 <= s && IsInt64(s)
    ensures Int64(s + 1) > 0 ==> Int64(s + 1) == s + 1 && IsInt64(s + 1)
  {
  }

  lemma EffectSequences(l: Ledger, tx: SendTx, isCheckTx: bool)
    requires GoodSequences(l.accounts) && AllNext(l.accounts, tx.inputs) && OutputsLoad(tx.inputs, tx.outputs)
    ensures GoodSequences(Effect(l, tx, isCheckTx).accounts)
  {
    var after := Effect(l, tx, isCheckTx).accounts;
    forall a | a in after ensures 0 <= after[a].sequence && IsInt64(after[a].sequence) {
      AcceptedAdvances(l, tx, isCheckTx, a);
    }
  }

  datatype Call = Call(tx: SendTx, isCheckTx: bool)

  /** The sequence numbers of one address in a transaction, if it is accepted. */
  ghost function StepSequences(verify: Verifier, l: Ledger, tx: SendTx, a: Bytes): seq<int> {
    if Accepts(verify, l.accounts, tx) then InputSequences(tx.inputs, a) else []
  }

  /** The sequence numbers of one address, call by call. */
  ghost function SequencesByCall(verify: Verifier, l: Ledger, calls: seq<Call>, a: Bytes): seq<seq<int>>
    decreases |calls|
  {
    if calls == [] then []
    else
      [StepSequences(verify, l, calls[0].tx, a)] +
      SequencesByCall(verify, Step(verify, l, calls[0].tx, calls[0].isCheckTx), calls[1..], a)
  }

  function Flatten(parts: seq<seq<int>>): seq<int> {
    if parts == [] then [] else parts[0] + Flatten(parts[1..])
  }

  /** The sequence numbers of the accepted inputs of one address, in order. */
  ghost function AcceptedSequences(verify: Verifier, l: Ledger, calls: seq<Call>, a: Bytes): seq<int> {
    Flatten(SequencesByCall(verify, l, calls, a))
  }

  /** A step accepts at most one sequence number of an address, the next one, and stores it. */
  lemma StepAdvances(verify: Verifier, l: Ledger, tx: SendTx, isCheckTx: bool, a: Bytes)
    requires GoodSequences(l.accounts)
    ensures GoodSequences(Step(verify, l, tx, isCheckTx).accounts)
    ensures var s := StepSequences(verify, l, tx, a);
            && (s == [] || s == [SequenceOf(l.accounts, a) + 1])
            && SequenceOf(Step(verify, l, tx, isCheckTx).accounts, a) == SequenceOf(l.accounts, a) + |s|
  {
    if Accepts(verify, l.accounts, tx) {
      AcceptedAllNext(verify, l.accounts, tx);
      AllNextSequences(l.accounts, tx.inputs, a);
      AcceptedAdvances(l, tx, isCheckTx, a);
      EffectSequences(l, tx, isCheckTx);
    }
  }

  /** The numbers `s + 1`, `s + 2` and so on. */
  ghost predicate ConsecutiveAfter(s: int, numbers: seq<int>) {
    forall j :: 0 <= j < |numbers| ==> numbers[j] == s + 1 + j
  }

  /** Every part has at most one number, the one after all numbers before it. */
  ghost predicate OneByOne(s: int, parts: seq<seq<int>>)
    decreases |parts|
  {
    parts == [] || ((parts[0] == [] || parts[0] == [s + 1]) && OneByOne(s + |parts[0]|, parts[1..]))
  }

  lemma {:induction false} OneByOneIsConsecutive(s: int, parts: seq<seq<int>>)
    requires OneByOne(s, parts)
    ensures ConsecutiveAfter(s, Flatten(parts))
    decreases |parts|
  {
    if parts != [] {
      OneByOneIsConsecutive(s + |parts[0]|, parts[1..]);
    }
  }

  lemma {:induction false} CallsAdvance(verify: Verifier, l: Ledger, calls: seq<Call>, a: Bytes)
    requires GoodSequences(l.accounts)
    ensures OneByOne(SequenceOf(l.accounts, a), SequencesByCall(verify, l, calls, a))
    decreases |calls|
  {
    if calls != [] {
      var after := Step(verify, l, calls[0].tx, calls[0].isCheckTx);
      StepAdvances(verify, l, calls[0].tx, calls[0].isCheckTx, a);
      CallsAdvance(verify, after, calls[1..], a);
      var rest := SequencesByCall(verify, after, calls[1..], a);
      assert ([StepSequences(verify, l, calls[0].tx, a)] + rest)[1..] == rest;
    }
  }

  /** In any run the accepted sequence numbers of an address are consecutive, starting after the stored
      one, so no input is accepted twice. */
  lemma NoReplay(verify: Verifier, l: Ledger, calls: seq<Call>, a: Bytes)
    requires GoodSequences(l.accounts)
    ensures ConsecutiveAfter(SequenceOf(l.accounts, a), AcceptedSequences(verify, l, calls, a))
  {
    CallsAdvance(verify, l, calls, a);
    OneByOneIsConsecutive(SequenceOf(l.accounts, a), SequencesByCall(verify, l, calls, a));
  }
}
