/** `ExecTx`, which changes the state in place, against the specification in `ExecTxs`. */
module Execution {
  import opened ByteOrder
  import opened MachineInts
  import opened Coins
  import opened Coins64
  import opened ExecTxs
  import opened AppTxs

  // ---------------------------------------------------------------------------------------------
  // What a rejection reports

  datatype Code =
    | OK
    | InvalidInput
    | InvalidOutput
    | UnknownAddress
    | DuplicateAddress
    | InvalidSequence
    | InsufficientFunds
    | InvalidSignature
    | PluginFailed

  /** What loading input `n` reports. */
  ghost function LoadCode(accounts: Accounts, ins: seq<TxInput>, n: nat): Code
    requires n < |ins|
  {
    if IsInput(ins[..n], ins[n].address) then DuplicateAddress
    else if ins[n].address !in accounts then UnknownAddress
    else OK
  }

  /** The code of the first input that does not load. */
  ghost predicate LoadReport(accounts: Accounts, ins: seq<TxInput>, code: Code) {
    code != OK && exists n :: 0 <= n < |ins| && InputsLoad(accounts, ins[..n]) && code == LoadCode(accounts, ins, n)
  }

  /** What the tests of an input on its account report. */
  function ApproveCode(verify: Verifier, tx: SendTx, accounts: Accounts, i: TxInput): Code {
    if !IsNext(accounts, i) then InvalidSequence
    else if !Covered(accounts, i) then InsufficientFunds
    else if !Signed(verify, tx, accounts, i) then InvalidSignature
    else OK
  }

  /** The code of the first input that is not approved. */
  ghost predicate ApproveReport(verify: Verifier, tx: SendTx, accounts: Accounts, code: Code) {
    code != OK &&
    exists n :: 0 <= n < |tx.inputs| && AllApproved(verify, tx, accounts, n) &&
                code == ApproveCode(verify, tx, accounts, tx.inputs[n])
  }

  /** The code of the first test that fails, in the order of the code. */
  ghost predicate SendReport(verify: Verifier, accounts: Accounts, tx: SendTx, code: Code) {
    if exists i :: 0 <= i < |tx.inputs| && !InputBasic(tx.inputs[i]) then code == InvalidInput
    else if exists j :: 0 <= j < |tx.outputs| && !OutputBasic(tx.outputs[j]) then code == InvalidOutput
    else if !InputsLoad(accounts, tx.inputs) then LoadReport(accounts, tx.inputs, code)
    else if !OutputsLoad(tx.inputs, tx.outputs) then code == DuplicateAddress
    else if !AllApproved(verify, tx, accounts, |tx.inputs|) then ApproveReport(verify, tx, accounts, code)
    else if TotalIn(tx.inputs) != OutPlusFees(tx) then code == InvalidOutput
    else code == OK
  }

  /** What the tests of a plugin call's input on its account report. */
  function AppApproveCode(verify: AppVerifier, tx: AppTx, accounts: Accounts): Code {
    if !IsNext(accounts, tx.input) then InvalidSequence
    else if !Covered(accounts, tx.input) then InsufficientFunds
    else if !AppSigned(verify, tx, accounts) then InvalidSignature
    else OK
  }

  /** The code of the first test of a plugin call that fails, or whether the plugin does. */
  ghost function AppCode(verify: AppVerifier, plugins: Plugins, l: Ledger, tx: AppTx, isCheckTx: bool): Code {
    if !InputBasic(tx.input) then InvalidInput
    else if tx.input.address !in l.accounts then UnknownAddress
    else if AppApproveCode(verify, tx, l.accounts) != OK then AppApproveCode(verify, tx, l.accounts)
    else if !IsGTE64(tx.input.coins, [tx.fee]) then InsufficientFunds
    else if tx.name !in plugins then UnknownAddress
    else if AppEffect(plugins, l, tx, isCheckTx).1 then OK
    else PluginFailed
  }

  // ---------------------------------------------------------------------------------------------
  // Loaded accounts

  /** The map that the input loop builds. */
  ghost predicate LoadsInputs(accounts: Accounts, ins: seq<TxInput>, loaded: Accounts) {
    LoadedAs(accounts, ins, loaded) && forall a :: a in loaded ==> IsInput(ins, a)
  }

  /** The map after the output loop. */
  ghost predicate LoadsOutputs(accounts: Accounts, outs: seq<TxOutput>, inputs: Accounts, loaded: Accounts) {
    && (forall a :: a in inputs ==> a in loaded && loaded[a] == inputs[a])
    && (forall a :: a in loaded ==> a in inputs || IsLocalOutput(outs, a))
    && (forall a :: IsLocalOutput(outs, a) && a !in inputs ==> a in loaded && loaded[a] == Get(accounts, a))
  }

  lemma InputsSnoc(ins: seq<TxInput>, n: nat, a: Bytes)
    requires n < |ins|
    ensures IsInput(ins[..n + 1], a) <==> IsInput(ins[..n], a) || ins[n].address == a
  {
    var before, after := ins[..n], ins[..n + 1];
    if i :| 0 <= i < |before| && before[i].address == a {
      assert after[i].address == a;
    }
    if ins[n].address == a {
      assert after[n].address == a;
    }
    if i :| 0 <= i < |after| && after[i].address == a {
      if i < n {
        assert before[i].address == a;
      }
    }
  }

  lemma OutputsSnoc(outs: seq<TxOutput>, n: nat, a: Bytes)
    requires n < |outs|
    ensures IsLocalOutput(outs[..n + 1], a) <==> IsLocalOutput(outs[..n], a) || Destination(outs[n].address) == Local(a)
  {
    var before, after := outs[..n], outs[..n + 1];
    if j :| 0 <= j < |before| && Destination(before[j].address) == Local(a) {
      assert Destination(after[j].address) == Local(a);
    }
    if Destination(outs[n].address) == Local(a) {
      assert Destination(after[n].address) == Local(a);
    }
    if j :| 0 <= j < |after| && Destination(after[j].address) == Local(a) {
      if j < n {
        assert Destination(before[j].address) == Local(a);
      }
    }
  }

  lemma InputsLoadSnoc(accounts: Accounts, ins: seq<TxInput>, n: nat)
    requires n < |ins|
    ensures InputsLoad(accounts, ins[..n + 1]) <==>
            InputsLoad(accounts, ins[..n]) && ins[n].address in accounts && !IsInput(ins[..n], ins[n].address)
  {
    var before, after := ins[..n], ins[..n + 1];
    assert forall i :: 0 <= i < n ==> before[i] == after[i] == ins[i];
    assert after[n] == ins[n];
  }

  lemma OutputsLoadSnoc(ins: seq<TxInput>, outs: seq<TxOutput>, n: nat)
    requires n < |outs|
    ensures OutputsLoad(ins, outs[..n + 1]) <==>
            OutputsLoad(ins, outs[..n]) &&
            (Destination(outs[n].address).Local? ==>
               !IsInput(ins, Destination(outs[n].address).address) &&
               !IsLocalOutput(outs[..n], Destination(outs[n].address).address))
  {
    var before, after := outs[..n], outs[..n + 1];
    assert forall j :: 0 <= j < n ==> before[j] == after[j] == outs[j];
    assert after[n] == outs[n];
  }

  /** Loading fails as soon as a prefix fails to load. */
  lemma {:induction false} InputsLoadFrom(accounts: Accounts, ins: seq<TxInput>, n: nat)
    requires n <= |ins| && InputsLoad(accounts, ins)
    ensures InputsLoad(accounts, ins[..n])
  {
    var before := ins[..n];
    assert forall i :: 0 <= i < n ==> before[i] == ins[i];
  }

  lemma {:induction false} OutputsLoadFrom(ins: seq<TxInput>, outs: seq<TxOutput>, n: nat)
    requires n <= |outs| && OutputsLoad(ins, outs)
    ensures OutputsLoad(ins, outs[..n])
  {
    var before := outs[..n];
    assert forall j :: 0 <= j < n ==> before[j] == outs[j];
  }

  // ---------------------------------------------------------------------------------------------
  // Validation

  method ValidateInputBasic(i: TxInput) returns (ok: bool)
    ensures ok <==> InputBasic(i)
  {
    if |i.address| != 20 {
      return false;
    }
    var valid := IsValid(i.coins);
    if !valid || |i.coins| == 0 || i.sequence <= 0 {
      return false;
    }
    if i.sequence == 1 && i.pubKey.None? {
      return false;
    }
    return !(i.sequence > 1 && i.pubKey.Some?);
  }

  method ValidateOutputBasic(o: TxOutput) returns (ok: bool)
    ensures ok <==> OutputBasic(o)
  {
    if Destination(o.address) == Malformed {
      return false;
    }
    var valid := IsValid(o.coins);
    return valid && |o.coins| != 0;
  }

  method ValidateInputsBasic(ins: seq<TxInput>) returns (ok: bool)
    ensures ok <==> forall i :: 0 <= i < |ins| ==> InputBasic(ins[i])
  {
    for n := 0 to |ins|
      invariant forall i :: 0 <= i < n ==> InputBasic(ins[i])
    {
      var valid := ValidateInputBasic(ins[n]);
      if !valid {
        return false;
      }
    }
    return true;
  }

  method ValidateOutputsBasic(outs: seq<TxOutput>) returns (ok: bool)
    ensures ok <==> forall j :: 0 <= j < |outs| ==> OutputBasic(outs[j])
  {
    for n := 0 to |outs|
      invariant forall j :: 0 <= j < n ==> OutputBasic(outs[j])
    {
      var valid := ValidateOutputBasic(outs[n]);
      if !valid {
        return false;
      }
    }
    return true;
  }

  method SumOutputs(outs: seq<TxOutput>) returns (total: Coins)
    ensures total == TotalOut(outs)
  {
    total := [];
    for n := 0 to |outs|
      invariant total == TotalOut(outs[..n])
    {
      assert outs[..n + 1][..n] == outs[..n];
      total := PlusCoins64(total, outs[n].coins);
    }
    assert outs[..|outs|] == outs;
  }

  method SumOutputsAndFees(tx: SendTx) returns (total: Coins)
    ensures total == OutPlusFees(tx)
  {
    total := SumOutputs(tx.outputs);
    var fees := [tx.fee];
    assert Valid(fees) <==> fees[0].amount != 0;
    var payFees := IsValid(fees);
    if payFees {
      total := PlusCoins64(total, fees);
    }
  }

  // ---------------------------------------------------------------------------------------------
  // The state

  class State {
    var ledger: Ledger
    const verify: Verifier
    const verifyApp: AppVerifier
    const plugins: Plugins

    constructor (l: Ledger, v: Verifier, app: AppVerifier, p: Plugins)
      ensures ledger == l && verify == v && verifyApp == app && plugins == p
    {
      ledger, verify, verifyApp, plugins := l, v, app, p;
    }

    method SetAccount(a: Bytes, acc: Account)
      modifies this
      ensures ledger == old(ledger).(accounts := old(ledger).accounts[a := acc])
    {
      ledger := ledger.(accounts := ledger.accounts[a := acc]);
    }

    /** A copy on which a plugin works. */
    method CacheWrap() returns (cache: State)
      ensures fresh(cache) && cache.ledger == ledger
    {
      cache := new State(ledger, verify, verifyApp, plugins);
    }

    method GetInputs(ins: seq<TxInput>) returns (code: Code, r: Option<Accounts>)
      ensures r.Some? <==> InputsLoad(ledger.accounts, ins)
      ensures r.None? ==> LoadReport(ledger.accounts, ins, code)
      ensures r.Some? ==> LoadsInputs(ledger.accounts, ins, r.value)
    {
      var loaded: Accounts := map[];
      for n := 0 to |ins|
        invariant InputsLoad(ledger.accounts, ins[..n]) && LoadsInputs(ledger.accounts, ins[..n], loaded)
      {
        InputsLoadSnoc(ledger.accounts, ins, n);
        KeysAreInputs(ledger.accounts, ins[..n], loaded, ins[n].address);
        if ins[n].address in loaded {
          NotLoaded(ledger.accounts, ins, n);
          assert DuplicateAddress == LoadCode(ledger.accounts, ins, n);
          return DuplicateAddress, None;
        }
        if ins[n].address !in ledger.accounts {
          NotLoaded(ledger.accounts, ins, n);
          assert UnknownAddress == LoadCode(ledger.accounts, ins, n);
          return UnknownAddress, None;
        }
        var acc := ledger.accounts[ins[n].address];
        if ins[n].pubKey.Some? {
          acc := acc.(pubKey := ins[n].pubKey);
        }
        LoadsInputsSnoc(ledger.accounts, ins, n, loaded);
        loaded := loaded[ins[n].address := acc];
      }
      assert ins[..|ins|] == ins;
      return OK, Some(loaded);
    }

    method GetOrMakeOutputs(inputs: Accounts, outs: seq<TxOutput>, ghost ins: seq<TxInput>)
        returns (r: Option<Accounts>)
      requires forall a :: a in inputs <==> IsInput(ins, a)
      ensures r.Some? <==> OutputsLoad(ins, outs)
      ensures r.Some? ==> LoadsOutputs(ledger.accounts, outs, inputs, r.value)
    {
      var loaded := inputs;
      for n := 0 to |outs|
        invariant OutputsLoad(ins, outs[..n]) && LoadsOutputs(ledger.accounts, outs[..n], inputs, loaded)
      {
        OutputsLoadSnoc(ins, outs, n);
        var dest := Destination(outs[n].address);
        if dest.Local? {
          if dest.address in loaded {
            OutputNotLoaded(ins, outs, n);
            return None;
          }
          LocalSnoc(ledger.accounts, outs, n, inputs, loaded);
          loaded := loaded[dest.address := Get(ledger.accounts, dest.address)];
        } else {
          RemoteSnoc(ledger.accounts, outs, n, inputs, loaded);
        }
      }
      assert outs[..|outs|] == outs;
      return Some(loaded);
    }

    method ValidateInputAdvanced(tx: SendTx, acc: Account, i: TxInput) returns (code: Code)
      requires i.address in ledger.accounts && acc == Keyed(ledger.accounts[i.address], i)
      ensures code == ApproveCode(verify, tx, ledger.accounts, i)
      ensures code == OK <==> Approves(verify, tx, ledger.accounts, i)
    {
      if Int64(acc.sequence + 1) != i.sequence {
        return InvalidSequence;
      }
      if !IsGTE64(acc.balance, i.coins) {
        return InsufficientFunds;
      }
      if !verify(tx, acc.pubKey, i.signature) {
        return InvalidSignature;
      }
      return OK;
    }

    method ValidateInputsAdvanced(tx: SendTx, loaded: Accounts) returns (code: Code, total: Coins)
      requires LoadedAs(ledger.accounts, tx.inputs, loaded)
      ensures code == OK <==> AllApproved(verify, tx, ledger.accounts, |tx.inputs|)
      ensures code != OK ==> ApproveReport(verify, tx, ledger.accounts, code)
      ensures code == OK ==> total == TotalIn(tx.inputs)
    {
      total := [];
      for n := 0 to |tx.inputs|
        invariant AllApproved(verify, tx, ledger.accounts, n)
        invariant total == TotalIn(tx.inputs[..n])
      {
        code := ValidateInputAdvanced(tx, loaded[tx.inputs[n].address], tx.inputs[n]);
        ApprovedSnoc(verify, tx, ledger.accounts, n);
        if code != OK {
          return;
        }
        TotalInSnoc(tx.inputs, n);
        total := PlusCoins64(total, tx.inputs[n].coins);
      }
      assert tx.inputs[..|tx.inputs|] == tx.inputs;
      code := OK;
    }

    method AdjustByInputs(loaded: Accounts, ins: seq<TxInput>) returns (loaded': Accounts)
      requires InputsLoad(ledger.accounts, ins) && LoadedAs(ledger.accounts, ins, loaded)
      requires forall i :: 0 <= i < |ins| ==> Covered(ledger.accounts, ins[i])
      modifies this
      ensures ledger == old(ledger).(accounts := Debited(old(ledger).accounts, ins))
      ensures forall a :: a in loaded && !IsInput(ins, a) ==> a in loaded' && loaded'[a] == loaded[a]
    {
      loaded' := loaded;
      for n := 0 to |ins|
        invariant ledger == old(ledger).(accounts := Debited(old(ledger).accounts, ins[..n]))
        invariant LoadedAs(old(ledger).accounts, ins[n..], loaded')
        invariant forall a :: a in loaded && !IsInput(ins, a) ==> a in loaded' && loaded'[a] == loaded[a]
      {
        assert ins[n..][0] == ins[n];
        OthersStillLoaded(old(ledger).accounts, ins, n, loaded');
        DebitedSnoc(old(ledger).accounts, ins, n);
        loaded' := AdjustInput(loaded', ins[n], old(ledger).accounts);
      }
      assert ins[..|ins|] == ins;
    }

    method AdjustInput(loaded: Accounts, i: TxInput, ghost before: Accounts) returns (loaded': Accounts)
      requires i.address in before && i.address in loaded && loaded[i.address] == Keyed(before[i.address], i)
      requires Covered(before, i)
      modifies this
      ensures ledger == old(ledger).(accounts := old(ledger).accounts[i.address := Debit(before[i.address], i)])
      ensures loaded' == loaded[i.address := Debit(before[i.address], i)]
    {
      var acc := loaded[i.address];
      if !IsGTE64(acc.balance, i.coins) {
        // The sanity panic of the code.
        assert false;
      }
      acc := acc.(balance := Minus64(acc.balance, i.coins));
      acc := acc.(sequence := Int64(acc.sequence + 1));
      loaded' := loaded[i.address := acc];
      ledger := ledger.(accounts := ledger.accounts[i.address := acc]);
    }

    method AdjustByOutputs(loaded: Accounts, outs: seq<TxOutput>, isCheckTx: bool, ghost before: Accounts)
      requires forall i, j :: 0 <= i < j < |outs| && Destination(outs[i].address).Local? ==>
                 Destination(outs[i].address) != Destination(outs[j].address)
      requires OutputsLoadedAs(before, outs, loaded)
      modifies this
      ensures ledger.packets == old(ledger).packets + Packets(outs)
      ensures ledger.accounts == if isCheckTx then old(ledger).accounts else Credited(before, old(ledger).accounts,
                                                                                      outs)
    {
      var m := loaded;
      for n := 0 to |outs|
        invariant ledger.packets == old(ledger).packets + Packets(outs[..n])
        invariant ledger.accounts ==
                  if isCheckTx then old(ledger).accounts else Credited(before, old(ledger).accounts, outs[..n])
        invariant OutputsLoadedAs(before, outs[n..], m)
      {
        CreditedSnoc(before, old(ledger).accounts, outs, n);
        OtherOutputsStillLoaded(before, outs, n, m);
        m := AdjustOutput(m, outs[n], isCheckTx, before);
      }
      assert outs[..|outs|] == outs;
    }

    method AdjustOutput(loaded: Accounts, o: TxOutput, isCheckTx: bool, ghost before: Accounts)
        returns (loaded': Accounts)
      requires OutputLoadedAs(before, o, loaded)
      modifies this
      ensures ledger.packets == old(ledger).packets + PacketOf(o)
      ensures ledger.accounts == if isCheckTx then old(ledger).accounts else CreditOne(before, old(ledger).accounts, o)
      ensures loaded' == CreditOne(before, loaded, o)
    {
      loaded' := loaded;
      match Destination(o.address) {
        case Local(a) =>
          var acc := loaded[a].(balance := Plus64(loaded[a].balance, o.coins));
          loaded' := loaded[a := acc];
          if !isCheckTx {
            ledger := ledger.(accounts := ledger.accounts[a := acc]);
          }
        case _ =>
          ledger := ledger.(packets := ledger.packets + PacketOf(o));
      }
    }

    /** All tests of a transaction, and the accounts loaded for it. */
    method CheckSendTx(tx: SendTx) returns (code: Code, inputs: Accounts, loaded: Accounts)
      ensures code == OK <==> Accepts(verify, ledger.accounts, tx)
      ensures SendReport(verify, ledger.accounts, tx, code)
      ensures code == OK ==>
                LoadsInputs(ledger.accounts, tx.inputs, inputs) && LoadsOutputs(ledger.accounts, tx.outputs, inputs,
                                                                                loaded)
    {
      inputs, loaded := map[], map[];
      var basic := ValidateInputsBasic(tx.inputs);
      if !basic {
        return InvalidInput, inputs, loaded;
      }
      basic := ValidateOutputsBasic(tx.outputs);
      if !basic {
        return InvalidOutput, inputs, loaded;
      }
      var some;
      code, some := GetInputs(tx.inputs);
      if some.None? {
        return;
      }
      inputs := some.value;
      some := GetOrMakeOutputs(inputs, tx.outputs, tx.inputs);
      if some.None? {
        return DuplicateAddress, inputs, loaded;
      }
      loaded := some.value;
      code := CheckTotals(tx, loaded);
    }

    method CheckTotals(tx: SendTx, loaded: Accounts) returns (code: Code)
      requires forall i :: 0 <= i < |tx.inputs| ==> InputBasic(tx.inputs[i])
      requires forall j :: 0 <= j < |tx.outputs| ==> OutputBasic(tx.outputs[j])
      requires InputsLoad(ledger.accounts, tx.inputs) && OutputsLoad(tx.inputs, tx.outputs)
      requires LoadedAs(ledger.accounts, tx.inputs, loaded)
      ensures code == OK <==> Accepts(verify, ledger.accounts, tx)
      ensures SendReport(verify, ledger.accounts, tx, code)
    {
      var inTotal;
      code, inTotal := ValidateInputsAdvanced(tx, loaded);
      if code != OK {
        NotApproved(verify, tx, ledger.accounts);
        return;
      }
      var outPlusFees := SumOutputsAndFees(tx);
      var balanced := IsEqual(inTotal, outPlusFees);
      if !balanced {
        Unbalanced(verify, tx, ledger.accounts);
        return InvalidOutput;
      }
      Approved(verify, tx, ledger.accounts);
    }

    /** A transaction is accepted exactly as specified; a rejected one changes nothing and reports the first
        test that fails. */
    method ExecSendTx(tx: SendTx, isCheckTx: bool) returns (code: Code)
      modifies this
      ensures code == OK <==> Accepts(verify, old(ledger).accounts, tx)
      ensures SendReport(verify, old(ledger).accounts, tx, code)
      ensures ledger == Step(verify, old(ledger), tx, isCheckTx)
    {
      var inputs, loaded;
      code, inputs, loaded := CheckSendTx(tx);
      if code == OK {
        ghost var before := ledger.accounts;
        AcceptedCovered(verify, before, tx);
        var loaded' := AdjustByInputs(loaded, tx.inputs);
        OutputsStillLoaded(before, tx, inputs, loaded, loaded');
        AdjustByOutputs(loaded', tx.outputs, isCheckTx, before);
      }
    }

    method ValidateAppInput(tx: AppTx, acc: Account) returns (code: Code)
      requires tx.input.address in ledger.accounts && acc == Keyed(ledger.accounts[tx.input.address], tx.input)
      ensures code == AppApproveCode(verifyApp, tx, ledger.accounts)
    {
      if Int64(acc.sequence + 1) != tx.input.sequence {
        return InvalidSequence;
      }
      if !IsGTE64(acc.balance, tx.input.coins) {
        return InsufficientFunds;
      }
      if !verifyApp(tx, acc.pubKey, tx.input.signature) {
        return InvalidSignature;
      }
      return OK;
    }

    /** The verdict, its code and the new ledger are as specified: a plugin's work is kept only if it succeeds. */
    method ExecAppTx(tx: AppTx, isCheckTx: bool) returns (code: Code)
      modifies this
      ensures (ledger, code == OK) == AppStep(verifyApp, plugins, old(ledger), tx, isCheckTx)
      ensures code == AppCode(verifyApp, plugins, old(ledger), tx, isCheckTx)
    {
      var basic := ValidateInputBasic(tx.input);
      if !basic {
        return InvalidInput;
      }
      if tx.input.address !in ledger.accounts {
        return UnknownAddress;
      }
      var acc := ledger.accounts[tx.input.address];
      if tx.input.pubKey.Some? {
        acc := acc.(pubKey := tx.input.pubKey);
      }
      code := ValidateAppInput(tx, acc);
      if code != OK {
        return;
      }
      if !IsGTE64(tx.input.coins, [tx.fee]) {
        return InsufficientFunds;
      }
      if tx.name !in plugins {
        return UnknownAddress;
      }
      var ok := CallPlugin(tx, isCheckTx, acc);
      code := if ok then OK else PluginFailed;
    }

    method CallPlugin(tx: AppTx, isCheckTx: bool, loaded: Account) returns (ok: bool)
      requires tx.input.address in ledger.accounts && tx.name in plugins
      requires loaded == Keyed(ledger.accounts[tx.input.address], tx.input)
      modifies this
      ensures (ledger, ok) == AppEffect(plugins, old(ledger), tx, isCheckTx)
    {
      var coins := Minus64(tx.input.coins, [tx.fee]);
      var acc := loaded.(sequence := Int64(loaded.sequence + 1));
      acc := acc.(balance := Minus64(acc.balance, tx.input.coins));
      assert acc == Debit(ledger.accounts[tx.input.address], tx.input);
      if isCheckTx {
        SetAccount(tx.input.address, acc);
        return true;
      }
      var checkpoint := acc;
      var cache := CacheWrap();
      cache.SetAccount(tx.input.address, acc);
      var result := plugins[tx.name](cache.ledger, CallContext(tx.input.address, acc, coins), tx.data);
      cache.ledger, ok := result.0, result.1;
      if ok {
        ledger := cache.ledger;
      } else {
        checkpoint := checkpoint.(balance := Plus64(checkpoint.balance, coins));
        SetAccount(tx.input.address, checkpoint);
      }
    }
  }

  /** An input that passes the three tests on its account. */
  predicate Approves(verify: Verifier, tx: SendTx, accounts: Accounts, i: TxInput) {
    IsNext(accounts, i) && Covered(accounts, i) && Signed(verify, tx, accounts, i)
  }

  ghost predicate AllApproved(verify: Verifier, tx: SendTx, accounts: Accounts, n: nat)
    requires n <= |tx.inputs|
  {
    forall i {:trigger Approves(verify, tx, accounts, tx.inputs[i])} :: 0 <= i < n ==>
      Approves(verify, tx, accounts, tx.inputs[i])
  }

  lemma ApprovedSnoc(verify: Verifier, tx: SendTx, accounts: Accounts, n: nat)
    requires n < |tx.inputs| && AllApproved(verify, tx, accounts, n)
    ensures Approves(verify, tx, accounts, tx.inputs[n]) ==> AllApproved(verify, tx, accounts, n + 1)
    ensures !Approves(verify, tx, accounts, tx.inputs[n]) ==> !AllApproved(verify, tx, accounts, |tx.inputs|)
  {
  }

  /** The inputs' accounts are as in `accounts`, with the supplied keys. */
  ghost predicate LoadedAs(accounts: Accounts, ins: seq<TxInput>, loaded: Accounts) {
    forall i :: 0 <= i < |ins| ==>
      ins[i].address in accounts && ins[i].address in loaded &&
      loaded[ins[i].address] == Keyed(accounts[ins[i].address], ins[i])
  }

  ghost predicate OutputLoadedAs(accounts: Accounts, o: TxOutput, loaded: Accounts) {
    var dest := Destination(o.address);
    dest.Local? ==> dest.address in loaded && loaded[dest.address] == Get(accounts, dest.address)
  }

  ghost predicate OutputsLoadedAs(accounts: Accounts, outs: seq<TxOutput>, loaded: Accounts) {
    forall j :: 0 <= j < |outs| ==> OutputLoadedAs(accounts, outs[j], loaded)
  }

  ghost function CreditOne(before: Accounts, accounts: Accounts, o: TxOutput): Accounts {
    match Destination(o.address)
    case Local(a) => accounts[a := Credit(Get(before, a), o)]
    case _ => accounts
  }

  lemma TotalInSnoc(ins: seq<TxInput>, n: nat)
    requires n < |ins|
    ensures TotalIn(ins[..n + 1]) == Plus64(TotalIn(ins[..n]), ins[n].coins)
  {
    assert ins[..n + 1][..n] == ins[..n];
  }

  lemma DebitedSnoc(accounts: Accounts, ins: seq<TxInput>, n: nat)
    requires n < |ins| && ins[n].address in accounts
    ensures Debited(accounts, ins[..n + 1]) ==
            Debited(accounts, ins[..n])[ins[n].address := Debit(accounts[ins[n].address], ins[n])]
  {
    assert ins[..n + 1][..n] == ins[..n];
  }

  lemma CreditedSnoc(before: Accounts, accounts: Accounts, outs: seq<TxOutput>, n: nat)
    requires n < |outs|
    ensures Credited(before, accounts, outs[..n + 1]) == CreditOne(before, Credited(before, accounts, outs[..n]),
                                                                   outs[n])
    ensures Packets(outs[..n + 1]) == Packets(outs[..n]) + PacketOf(outs[n])
  {
    assert outs[..n + 1][..n] == outs[..n];
  }

  lemma OthersStillLoaded(before: Accounts, ins: seq<TxInput>, n: nat, loaded: Accounts)
    requires n < |ins| && InputsLoad(before, ins) && LoadedAs(before, ins[n..], loaded)
    ensures ins[n].address in loaded && loaded[ins[n].address] == Keyed(before[ins[n].address], ins[n])
    ensures LoadedAs(before, ins[n + 1..], loaded[ins[n].address := Debit(before[ins[n].address], ins[n])])
  {
    var rest := ins[n + 1..];
    assert ins[n..][0] == ins[n];
    forall i | 0 <= i < |rest|
      ensures rest[i].address in loaded && rest[i].address != ins[n].address &&
              loaded[rest[i].address] == Keyed(before[rest[i].address], rest[i])
    {
      assert ins[n..][i + 1] == rest[i] == ins[n + 1 + i];
    }
  }

  lemma OtherOutputsStillLoaded(before: Accounts, outs: seq<TxOutput>, n: nat, loaded: Accounts)
    requires n < |outs| && OutputsLoadedAs(before, outs[n..], loaded)
    requires forall i, j :: 0 <= i < j < |outs| && Destination(outs[i].address).Local? ==>
               Destination(outs[i].address) != Destination(outs[j].address)
    ensures OutputLoadedAs(before, outs[n], loaded)
    ensures OutputsLoadedAs(before, outs[n + 1..], CreditOne(before, loaded, outs[n]))
  {
    var rest := outs[n + 1..];
    assert outs[n..][0] == outs[n];
    forall j | 0 <= j < |rest| ensures OutputLoadedAs(before, rest[j], CreditOne(before, loaded, outs[n])) {
      assert outs[n..][j + 1] == rest[j] == outs[n + 1 + j];
      assert OutputLoadedAs(before, rest[j], loaded);
    }
  }

  lemma Approved(verify: Verifier, tx: SendTx, accounts: Accounts)
    requires AllApproved(verify, tx, accounts, |tx.inputs|)
    requires forall i :: 0 <= i < |tx.inputs| ==> InputBasic(tx.inputs[i])
    requires forall j :: 0 <= j < |tx.outputs| ==> OutputBasic(tx.outputs[j])
    requires InputsLoad(accounts, tx.inputs) && OutputsLoad(tx.inputs, tx.outputs)
    requires TotalIn(tx.inputs) == OutPlusFees(tx)
    ensures Accepts(verify, accounts, tx)
  {
    forall i | 0 <= i < |tx.inputs|
      ensures IsNext(accounts, tx.inputs[i]) && Covered(accounts, tx.inputs[i]) && Signed(verify, tx, accounts,
                                                                                          tx.inputs[i])
    {
      assert Approves(verify, tx, accounts, tx.inputs[i]);
    }
  }

  lemma Unbalanced(verify: Verifier, tx: SendTx, accounts: Accounts)
    requires TotalIn(tx.inputs) != OutPlusFees(tx)
    ensures !Accepts(verify, accounts, tx)
  {
  }

  lemma NotApproved(verify: Verifier, tx: SendTx, accounts: Accounts)
    requires !AllApproved(verify, tx, accounts, |tx.inputs|)
    ensures !Accepts(verify, accounts, tx)
  {
    var i :| 0 <= i < |tx.inputs| && !Approves(verify, tx, accounts, tx.inputs[i]);
    assert !IsNext(accounts, tx.inputs[i]) || !Covered(accounts, tx.inputs[i]) || !Signed(verify, tx, accounts,
                                                                                          tx.inputs[i]);
  }

  lemma AcceptedCovered(verify: Verifier, accounts: Accounts, tx: SendTx)
    requires Accepts(verify, accounts, tx)
    ensures forall i :: 0 <= i < |tx.inputs| ==> Covered(accounts, tx.inputs[i])
  {
    forall i | 0 <= i < |tx.inputs| ensures Covered(accounts, tx.inputs[i]) {
    }
  }

  /** The accounts of local outputs are no inputs, so debiting leaves them as loaded. */
  lemma OutputsStillLoaded(before: Accounts, tx: SendTx, inputs: Accounts, loaded: Accounts, loaded': Accounts)
    requires OutputsLoad(tx.inputs, tx.outputs)
    requires forall a :: a in inputs <==> IsInput(tx.inputs, a)
    requires LoadsOutputs(before, tx.outputs, inputs, loaded)
    requires forall a :: a in loaded && !IsInput(tx.inputs, a) ==> a in loaded' && loaded'[a] == loaded[a]
    ensures OutputsLoadedAs(before, tx.outputs, loaded')
  {
    forall j | 0 <= j < |tx.outputs| ensures OutputLoadedAs(before, tx.outputs[j], loaded') {
      var dest := Destination(tx.outputs[j].address);
      if dest.Local? {
        assert !IsInput(tx.inputs, dest.address) && IsLocalOutput(tx.outputs, dest.address);
      }
    }
  }

  lemma OutputNotLoaded(ins: seq<TxInput>, outs: seq<TxOutput>, n: nat)
    requires n < |outs| && !OutputsLoad(ins, outs[..n + 1])
    ensures !OutputsLoad(ins, outs)
  {
    if OutputsLoad(ins, outs) {
      OutputsLoadFrom(ins, outs, n + 1);
    }
  }

  lemma LocalSnoc(accounts: Accounts, outs: seq<TxOutput>, n: nat, inputs: Accounts, loaded: Accounts)
    requires n < |outs| && LoadsOutputs(accounts, outs[..n], inputs, loaded)
    requires Destination(outs[n].address).Local? && Destination(outs[n].address).address !in loaded
    ensures var a := Destination(outs[n].address).address;
            LoadsOutputs(accounts, outs[..n + 1], inputs, loaded[a := Get(accounts, a)])
  {
    forall a ensures IsLocalOutput(outs[..n + 1], a) <==>
        IsLocalOutput(outs[..n], a) || Destination(outs[n].address) == Local(a) {
      OutputsSnoc(outs, n, a);
    }
  }

  lemma RemoteSnoc(accounts: Accounts, outs: seq<TxOutput>, n: nat, inputs: Accounts, loaded: Accounts)
    requires n < |outs| && LoadsOutputs(accounts, outs[..n], inputs, loaded)
    requires !Destination(outs[n].address).Local?
    ensures LoadsOutputs(accounts, outs[..n + 1], inputs, loaded)
  {
    forall a ensures IsLocalOutput(outs[..n + 1], a) <==> IsLocalOutput(outs[..n], a) {
      OutputsSnoc(outs, n, a);
    }
  }

  lemma KeysAreInputs(accounts: Accounts, ins: seq<TxInput>, loaded: Accounts, a: Bytes)
    requires LoadsInputs(accounts, ins, loaded)
    ensures a in loaded <==> IsInput(ins, a)
  {
  }

  lemma NotLoaded(accounts: Accounts, ins: seq<TxInput>, n: nat)
    requires n < |ins| && !InputsLoad(accounts, ins[..n + 1])
    ensures !InputsLoad(accounts, ins)
  {
    if InputsLoad(accounts, ins) {
      InputsLoadFrom(accounts, ins, n + 1);
    }
  }

  lemma LoadsInputsSnoc(accounts: Accounts, ins: seq<TxInput>, n: nat, loaded: Accounts)
    requires n < |ins| && LoadsInputs(accounts, ins[..n], loaded)
    requires ins[n].address in accounts && !IsInput(ins[..n], ins[n].address)
    ensures LoadsInputs(accounts, ins[..n + 1], loaded[ins[n].address := Keyed(accounts[ins[n].address], ins[n])])
  {
    var before, after := ins[..n], ins[..n + 1];
    var loaded' := loaded[ins[n].address := Keyed(accounts[ins[n].address], ins[n])];
    forall i | 0 <= i < |after|
      ensures after[i].address in accounts && after[i].address in loaded' &&
              loaded'[after[i].address] == Keyed(accounts[after[i].address], after[i])
    {
      if i < n {
        assert after[i] == before[i];
      }
    }
    forall a | a in loaded' ensures IsInput(after, a) {
      InputsSnoc(ins, n, a);
    }
  }
}
