/** What the code of a rejected transaction tells its sender. */
module CodeLaws {
  import opened ByteOrder
  import opened MachineInts
  import opened Coins
  import opened Coins64
  import opened ExecTxs
  import opened AppTxs
  import opened Execution
  import opened SendLaws
  import opened AppLaws

  /** The input is in order by itself. */
  ghost predicate Shaped(i: TxInput) {
    |i.address| == 20 && Spendable(i.coins) && i.sequence > 0 && (i.pubKey.Some? <==> i.sequence == 1)
  }

  lemma ShapedIff(i: TxInput)
    ensures Shaped(i) <==> InputBasic(i)
  {
    SpendableIff(i.coins);
  }

  /** The account's next sequence number is another one. */
  ghost predicate OutOfSequence(accounts: Accounts, i: TxInput) {
    i.address in accounts && i.sequence != Int64(accounts[i.address].sequence + 1)
  }

  /** In some denomination the account has less than the input spends, up to overflow. */
  ghost predicate Uncovered(accounts: Accounts, i: TxInput) {
    i.address in accounts && exists d :: Gap(accounts[i.address].balance, i.coins, d) < 0
  }

  lemma UncoveredIff(accounts: Accounts, i: TxInput)
    requires GoodBalances(accounts) && i.address in accounts && Valid(i.coins) && Typed(i.coins)
    ensures Uncovered(accounts, i) <==> !Covered(accounts, i)
  {
    CoveredIff(accounts, i);
  }

  // ---------------------------------------------------------------------------------------------
  // Payments

  /** What each code says of the transaction. */
  ghost predicate Tells(verify: Verifier, accounts: Accounts, tx: SendTx, code: Code) {
    match code
    case OK => Accepts(verify, accounts, tx)
    case InvalidInput => exists i :: 0 <= i < |tx.inputs| && !Shaped(tx.inputs[i])
    case InvalidOutput => !OutputsStand(tx.outputs) || TotalIn(tx.inputs) != OutPlusFees(tx)
    case UnknownAddress => exists i :: 0 <= i < |tx.inputs| && tx.inputs[i].address !in accounts
    case DuplicateAddress => !Different(tx)
    case InvalidSequence => exists i :: 0 <= i < |tx.inputs| && OutOfSequence(accounts, tx.inputs[i])
    case InsufficientFunds => exists i :: 0 <= i < |tx.inputs| && Uncovered(accounts, tx.inputs[i])
    case InvalidSignature =>
      exists i :: 0 <= i < |tx.inputs| && tx.inputs[i].address in accounts &&
                  !verify(tx, KeyOf(accounts, tx.inputs[i]), tx.inputs[i].signature)
    case PluginFailed => false
  }

  lemma LoadTells(verify: Verifier, accounts: Accounts, tx: SendTx, code: Code)
    requires LoadReport(accounts, tx.inputs, code)
    ensures Tells(verify, accounts, tx, code)
  {
    var ins := tx.inputs;
    var n :| 0 <= n < |ins| && InputsLoad(accounts, ins[..n]) && code == LoadCode(accounts, ins, n);
    if IsInput(ins[..n], ins[n].address) {
      var i :| 0 <= i < n && ins[..n][i].address == ins[n].address;
      assert ins[i].address == ins[n].address;
    }
  }

  lemma ApproveTells(verify: Verifier, accounts: Accounts, tx: SendTx, code: Code)
    requires GoodBalances(accounts) && TypedTx(tx) && InputsLoad(accounts, tx.inputs)
    requires forall i :: 0 <= i < |tx.inputs| ==> InputBasic(tx.inputs[i])
    requires ApproveReport(verify, tx, accounts, code)
    ensures Tells(verify, accounts, tx, code)
  {
    var n :| 0 <= n < |tx.inputs| && AllApproved(verify, tx, accounts, n) &&
             code == ApproveCode(verify, tx, accounts, tx.inputs[n]);
    assert InputBasic(tx.inputs[n]);
    UncoveredIff(accounts, tx.inputs[n]);
  }

  /** The code of a payment names a test that it fails; there is none if and only if it is accepted. */
  lemma SendCodeTells(verify: Verifier, accounts: Accounts, tx: SendTx, code: Code)
    requires GoodBalances(accounts) && TypedTx(tx)
    requires SendReport(verify, accounts, tx, code) && (code == OK <==> Accepts(verify, accounts, tx))
    ensures Tells(verify, accounts, tx, code)
  {
    if i :| 0 <= i < |tx.inputs| && !InputBasic(tx.inputs[i]) {
      ShapedIff(tx.inputs[i]);
    } else if exists j :: 0 <= j < |tx.outputs| && !OutputBasic(tx.outputs[j]) {
      OutputsStandIff(tx.outputs);
    } else if !InputsLoad(accounts, tx.inputs) {
      LoadTells(verify, accounts, tx, code);
    } else if !OutputsLoad(tx.inputs, tx.outputs) {
      DifferentIff(accounts, tx);
    } else if !AllApproved(verify, tx, accounts, |tx.inputs|) {
      ApproveTells(verify, accounts, tx, code);
    }
  }

  // ---------------------------------------------------------------------------------------------
  // Plugin calls

  ghost predicate AppTells(verify: AppVerifier, plugins: Plugins, l: Ledger, tx: AppTx, isCheckTx: bool, code: Code) {
    match code
    case OK => AppAccepts(verify, plugins, l.accounts, tx)
    case InvalidInput => !Shaped(tx.input)
    case UnknownAddress => tx.input.address !in l.accounts || tx.name !in plugins
    case InvalidSequence => OutOfSequence(l.accounts, tx.input)
    case InsufficientFunds => Uncovered(l.accounts, tx.input) || exists d :: LessFee(tx, d) < 0
    case InvalidSignature =>
      tx.input.address in l.accounts && !verify(tx, KeyOf(l.accounts, tx.input), tx.input.signature)
    case PluginFailed => AppAccepts(verify, plugins, l.accounts, tx) && !isCheckTx
    case _ => false
  }

  /** The code of a plugin call names a test that it fails, or that the plugin failed. */
  lemma AppCodeTells(verify: AppVerifier, plugins: Plugins, l: Ledger, tx: AppTx, isCheckTx: bool)
    requires GoodBalances(l.accounts) && Typed(tx.input.coins) && IsInt64(tx.fee.amount)
    ensures AppTells(verify, plugins, l, tx, isCheckTx, AppCode(verify, plugins, l, tx, isCheckTx))
  {
    ShapedIff(tx.input);
    if Shaped(tx.input) && tx.input.address in l.accounts {
      UncoveredIff(l.accounts, tx.input);
      FeeCoveredIff(tx);
    }
  }
}
