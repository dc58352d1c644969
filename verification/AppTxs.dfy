/** Plugin calls: what an `AppTx` charges its payer, whatever the plugin does. */
module AppTxs {
  import opened ByteOrder
  import opened MachineInts
  import opened Coins
  import opened Coins64
  import opened ExecTxs

  datatype AppTx = AppTx(gas: int, fee: Coin, name: Bytes, input: TxInput, data: Bytes)
  datatype CallContext = CallContext(caller: Bytes, account: Account, coins: Coins)

  /** An arbitrary plugin: the ledger it leaves and whether it succeeded. */
  type Plugin = (Ledger, CallContext, Bytes) -> (Ledger, bool)
  type Plugins = map<Bytes, Plugin>
  type AppVerifier = (AppTx, Option<Bytes>, Bytes) -> bool

  predicate AppSigned(verify: AppVerifier, tx: AppTx, accounts: Accounts) {
    tx.input.address in accounts && verify(tx, Keyed(accounts[tx.input.address], tx.input).pubKey, tx.input.signature)
  }

  ghost predicate AppAccepts(verify: AppVerifier, plugins: Plugins, accounts: Accounts, tx: AppTx) {
    && InputBasic(tx.input) && IsNext(accounts, tx.input) && Covered(accounts, tx.input)
    && AppSigned(verify, tx, accounts) && IsGTE64(tx.input.coins, [tx.fee]) && tx.name in plugins
  }

  /** The ledger with the payer's whole input taken. */
  function Charged(l: Ledger, tx: AppTx): Ledger
    requires tx.input.address in l.accounts
  {
    l.(accounts := l.accounts[tx.input.address := Debit(l.accounts[tx.input.address], tx.input)])
  }

  /** What the plugin does with the ledger that it sees. */
  function Called(plugins: Plugins, l: Ledger, tx: AppTx): (Ledger, bool)
    requires tx.input.address in l.accounts && tx.name in plugins
  {
    var acc := Debit(l.accounts[tx.input.address], tx.input);
    plugins[tx.name](Charged(l, tx), CallContext(tx.input.address, acc, Minus64(tx.input.coins, [tx.fee])), tx.data)
  }

  /** The payer's record when the plugin fails: the input less the fee is given back. */
  function Refunded(acc: Account, tx: AppTx): Account {
    var debited := Debit(acc, tx.input);
    debited.(balance := Plus64(debited.balance, Minus64(tx.input.coins, [tx.fee])))
  }

  ghost function AppEffect(plugins: Plugins, l: Ledger, tx: AppTx, isCheckTx: bool): (Ledger, bool)
    requires tx.input.address in l.accounts && tx.name in plugins
  {
    if isCheckTx then (Charged(l, tx), true)
    else if Called(plugins, l, tx).1 then (Called(plugins, l, tx).0, true)
    else (l.(accounts := l.accounts[tx.input.address := Refunded(l.accounts[tx.input.address], tx)]), false)
  }

  ghost function AppStep(verify: AppVerifier, plugins: Plugins, l: Ledger, tx: AppTx, isCheckTx: bool): (Ledger, bool) {
    if AppAccepts(verify, plugins, l.accounts, tx) then AppEffect(plugins, l, tx, isCheckTx) else (l, false)
  }

  function FeeIn(tx: AppTx, d: Bytes): int {
    if d == tx.fee.denom then tx.fee.amount else 0
  }

  lemma WrappedOnce(v: int, x: int, k: int)
    requires IsInt64(v) && v == x + WORD * k
    ensures v == Int64(x)
  {
    Int64Range(v);
    Int64Shift(x, k);
  }

  lemma MinusWords(a: Coins, b: Coins, d: Bytes) returns (k: int)
    requires GoodCoins(a) && GoodCoins(b)
    ensures GoodCoins(Minus64(a, b)) && Amount(Minus64(a, b), d) == Amount(a, d) - Amount(b, d) + WORD * k
  {
    Minus64Good(a, b);
    Minus64Amount(a, b, d);
    Int64Wraps(Amount(a, d) - Amount(b, d));
    k := Wraps(Amount(a, d) - Amount(b, d));
  }

  /** Taking coins and giving back all but a fee takes the fee, whatever wraps around in between. */
  lemma RefundCoins(balance: Coins, coins: Coins, fee: Coins, d: Bytes)
    requires GoodCoins(balance) && GoodCoins(coins) && GoodCoins(fee)
    ensures Amount(Plus64(Minus64(balance, coins), Minus64(coins, fee)), d) ==
            Int64(Amount(balance, d) - Amount(fee, d))
  {
    var taken, back := Minus64(balance, coins), Minus64(coins, fee);
    var k1 := MinusWords(balance, coins, d);
    var k2 := MinusWords(coins, fee, d);
    var k3 := Plus64Words(taken, back, d);
    Plus64Typed(taken, back);
    TypedAmount(Plus64(taken, back), d);
    WrappedOnce(Amount(Plus64(taken, back), d), Amount(balance, d) - Amount(fee, d), k1 + k2 + k3);
  }

  lemma RefundAmount(acc: Account, tx: AppTx, d: Bytes)
    requires GoodCoins(acc.balance) && GoodCoins(tx.input.coins) && IsInt64(tx.fee.amount)
    ensures Amount(Refunded(acc, tx).balance, d) == Int64(Amount(acc.balance, d) - FeeIn(tx, d))
  {
    SingleAmount(tx.fee, d);
    RefundCoins(acc.balance, tx.input.coins, [tx.fee], d);
  }

  lemma FailureRefunds(verify: AppVerifier, plugins: Plugins, l: Ledger, tx: AppTx)
    requires AppAccepts(verify, plugins, l.accounts, tx) && !Called(plugins, l, tx).1
    ensures var payer := tx.input.address;
            AppStep(verify, plugins, l, tx, false).0 ==
            l.(accounts := l.accounts[payer := Refunded(l.accounts[payer], tx)])
  {
  }

  /** A failing plugin leaves no trace but the payer's record: its sequence number is used up, a supplied
      key is stored and, in every denomination, the balance is down by the fee, exactly if and only if
      that difference is an `int64`. */
  lemma FailureChargesOnlyTheFee(verify: AppVerifier, plugins: Plugins, l: Ledger, tx: AppTx, d: Bytes)
    requires GoodBalances(l.accounts) && Typed(tx.input.coins) && IsInt64(tx.fee.amount)
    requires AppAccepts(verify, plugins, l.accounts, tx) && !Called(plugins, l, tx).1
    ensures var payer, after := tx.input.address, AppStep(verify, plugins, l, tx, false).0;
            && after.packets == l.packets && after.accounts.Keys == l.accounts.Keys
            && (forall a :: a in l.accounts && a != payer ==> after.accounts[a] == l.accounts[a])
            && after.accounts[payer].sequence == tx.input.sequence
            && after.accounts[payer].pubKey == Keyed(l.accounts[payer], tx.input).pubKey
            && Amount(after.accounts[payer].balance, d) == Int64(Amount(l.accounts[payer].balance, d) - FeeIn(tx, d))
    ensures var payer, after := tx.input.address, AppStep(verify, plugins, l, tx, false).0;
            var left := Amount(l.accounts[payer].balance, d) - FeeIn(tx, d);
            Amount(after.accounts[payer].balance, d) == left <==> IsInt64(left)
  {
    FailureRefunds(verify, plugins, l, tx);
    RefundAmount(l.accounts[tx.input.address], tx, d);
    Int64Range(Amount(l.accounts[tx.input.address].balance, d) - FeeIn(tx, d));
  }
}
