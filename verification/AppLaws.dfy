/** What a plugin call does, written out. */
module AppLaws {
  import opened ByteOrder
  import opened MachineInts
  import opened Coins
  import opened Coins64
  import opened ExecTxs
  import opened AppTxs
  import opened SendLaws

  /** What the input leaves for the plugin in one denomination. */
  ghost function LessFee(tx: AppTx, d: Bytes): int {
    Int64(Amount(tx.input.coins, d) - if d == tx.fee.denom then tx.fee.amount else 0)
  }

  lemma LessFeeIsGap(tx: AppTx, d: Bytes)
    ensures LessFee(tx, d) == Gap(tx.input.coins, [tx.fee], d)
  {
    SingleAmount(tx.fee, d);
  }

  lemma FeeCoveredIff(tx: AppTx)
    requires GoodCoins(tx.input.coins) && IsInt64(tx.fee.amount)
    ensures IsGTE64(tx.input.coins, [tx.fee]) <==> forall d :: LessFee(tx, d) >= 0
  {
    SingleAmount(tx.fee, []);
    GTE64Iff(tx.input.coins, [tx.fee]);
    forall d ensures LessFee(tx, d) == Gap(tx.input.coins, [tx.fee], d) {
      LessFeeIsGap(tx, d);
    }
    if forall d :: LessFee(tx, d) >= 0 {
      forall d ensures Gap(tx.input.coins, [tx.fee], d) >= 0 {
        assert LessFee(tx, d) >= 0;
      }
    }
  }

  /** A plugin call is accepted if and only if its input stands as that of a payment does, is signed under the
      supplied or stored key and covers the fee in every denomination, and there is such a plugin. */
  lemma AppAcceptsIff(verify: AppVerifier, plugins: Plugins, accounts: Accounts, tx: AppTx)
    requires GoodBalances(accounts) && Typed(tx.input.coins) && IsInt64(tx.fee.amount)
    ensures AppAccepts(verify, plugins, accounts, tx) <==>
            && InputStands(accounts, tx.input) && verify(tx, KeyOf(accounts, tx.input), tx.input.signature)
            && (forall d :: LessFee(tx, d) >= 0) && tx.name in plugins
  {
    InputStandsIff(accounts, tx.input);
    if InputStands(accounts, tx.input) {
      FeeCoveredIff(tx);
    }
  }

  /** The ledger with the whole input taken: the payer's sequence number is used, a supplied key stored, and the balance
      less the input's coins in every denomination. Nothing else differs. */
  ghost predicate IsCharged(l: Ledger, tx: AppTx, charged: Ledger) {
    var payer := tx.input.address;
    && payer in l.accounts && charged.packets == l.packets && charged.accounts.Keys == l.accounts.Keys
    && (forall a :: a in l.accounts && a != payer ==> charged.accounts[a] == l.accounts[a])
    && Pays(l.accounts[payer], tx.input, charged.accounts[payer])
  }

  lemma ChargedIs(l: Ledger, tx: AppTx)
    requires GoodBalances(l.accounts) && GoodCoins(tx.input.coins) && IsNext(l.accounts, tx.input)
    ensures IsCharged(l, tx, Charged(l, tx))
  {
    DebitPays(l.accounts[tx.input.address], tx.input);
  }

  /** The plugin is told the caller, the charged account and, in every denomination, the input less the fee. */
  ghost predicate IsContext(tx: AppTx, charged: Ledger, ctx: CallContext) {
    && tx.input.address in charged.accounts && ctx.caller == tx.input.address
    && ctx.account == charged.accounts[tx.input.address] && forall d :: Amount(ctx.coins, d) == LessFee(tx, d)
  }

  lemma ContextIs(l: Ledger, tx: AppTx)
    requires GoodCoins(tx.input.coins) && IsInt64(tx.fee.amount) && tx.input.address in l.accounts
    ensures var acc := Debit(l.accounts[tx.input.address], tx.input);
            IsContext(tx, Charged(l, tx), CallContext(tx.input.address, acc, Minus64(tx.input.coins, [tx.fee])))
  {
    forall d ensures Amount(Minus64(tx.input.coins, [tx.fee]), d) == LessFee(tx, d) {
      SingleAmount(tx.fee, d);
      Minus64Amount(tx.input.coins, [tx.fee], d);
    }
  }

  /** An accepted call hands the charged ledger to the plugin. If that succeeds, what it returns is the new ledger; if
      it fails, the call does. In checking, the new ledger is the charged one and no plugin is called. */
  lemma AppCallLaw(verify: AppVerifier, plugins: Plugins, l: Ledger, tx: AppTx)
      returns (charged: Ledger, ctx: CallContext)
    requires GoodBalances(l.accounts) && Typed(tx.input.coins) && IsInt64(tx.fee.amount)
    requires AppAccepts(verify, plugins, l.accounts, tx)
    ensures IsCharged(l, tx, charged) && IsContext(tx, charged, ctx)
    ensures AppStep(verify, plugins, l, tx, true) == (charged, true)
    ensures var result, step := plugins[tx.name](charged, ctx, tx.data), AppStep(verify, plugins, l, tx, false);
            if result.1 then step == (result.0, true) else !step.1
  {
    charged := Charged(l, tx);
    ctx := CallContext(tx.input.address, Debit(l.accounts[tx.input.address], tx.input),
                       Minus64(tx.input.coins, [tx.fee]));
    ChargedIs(l, tx);
    ContextIs(l, tx);
  }
}
