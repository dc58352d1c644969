/** The block state machine of `BaseApp`. The committed contents, the check state and the deliver
    state share one committed map: the latter two are layers of dirty entries over it. */
module BaseApps {
  import opened ByteOrder
  import opened MergeIteration

  /** A layer of dirty entries; `None` deletes. A key names a mounted store and a key inside it. */
  type Delta = map<Bytes, Option<Bytes>>

  datatype Msg = Msg(route: Bytes, body: Bytes)
  datatype Tx = Tx(msgs: seq<Msg>, auth: Bytes)
  datatype Ctx = Ctx(header: Bytes, isCheckTx: bool, txBytes: Option<Bytes>, validators: Bytes)
  datatype Mode = Check | Simulate | Deliver

  /** What a handler did: its writes up to the point where it returned or panicked. */
  datatype Outcome = Succeeded | Failed | Panicked
  datatype Effect = Effect(writes: Delta, outcome: Outcome)
  datatype AnteOutcome = Continue(ctx: Option<Ctx>) | Abort | AntePanic
  datatype AnteEffect = AnteEffect(writes: Delta, outcome: AnteOutcome)

  datatype Result = OK | Undecodable | NoMessages | InvalidMessage | Aborted | NoRoute | MsgFailed | Recovered

  /** The application: arbitrary transformers of the contents they are shown. */
  datatype Config = Config(
    decode: Bytes -> Option<Tx>,
    validMsg: Msg -> bool,
    ante: Option<(Ctx, View, Tx) -> AnteEffect>,
    routes: Bytes -> bool,
    handle: (Ctx, View, Msg) -> Effect,
    initChainer: Option<(Ctx, View, Bytes) -> Delta>,
    beginBlocker: Option<(Ctx, View, Bytes) -> Delta>,
    endBlocker: Option<(Ctx, View, Bytes) -> Delta>)

  lemma OverlayTwice(m: View, a: Delta, b: Delta)
    ensures Overlay(m, a + b) == Overlay(Overlay(m, a), b)
  {
  }

  lemma OverlayNothing(m: View)
    ensures Overlay(m, map[]) == m
  {
  }

  // ---------------------------------------------------------------------------------------------
  // The reference machine: three unrelated plain maps

  datatype Plain = Plain(view: View, ctx: Ctx)

  datatype Flat = Flat(committed: View, check: Option<Plain>, deliver: Option<Plain>, validators: Bytes)

  /** Contents after the messages' writes, whatever their outcomes. */
  ghost function Compose(cfg: Config, ctx: Ctx, view: View, msgs: seq<Msg>): View {
    if msgs == [] then view
    else
      var v := Compose(cfg, ctx, view, msgs[..|msgs| - 1]);
      Overlay(v, cfg.handle(ctx, v, msgs[|msgs| - 1]).writes)
  }

  /** Message `i` is routed and succeeds on the contents left by its predecessors. */
  ghost predicate SucceedsAt(cfg: Config, ctx: Ctx, view: View, msgs: seq<Msg>, i: nat)
    requires i < |msgs|
  {
    cfg.routes(msgs[i].route) && cfg.handle(ctx, Compose(cfg, ctx, view, msgs[..i]), msgs[i]).outcome == Succeeded
  }

  ghost predicate AllSucceed(cfg: Config, ctx: Ctx, view: View, msgs: seq<Msg>) {
    forall i :: 0 <= i < |msgs| ==> SucceedsAt(cfg, ctx, view, msgs, i)
  }

  /** What the message loop reports for message `i`. */
  ghost function ResultAt(cfg: Config, ctx: Ctx, view: View, msgs: seq<Msg>, i: nat): Result
    requires i < |msgs|
  {
    if !cfg.routes(msgs[i].route) then NoRoute
    else
      match cfg.handle(ctx, Compose(cfg, ctx, view, msgs[..i]), msgs[i]).outcome
      case Succeeded => OK
      case Failed => MsgFailed
      case Panicked => Recovered
  }

  /** The loop reports success, or what the first message that does not succeed makes it report. */
  ghost predicate MsgsReport(cfg: Config, ctx: Ctx, view: View, msgs: seq<Msg>, r: Result) {
    if r == OK then AllSucceed(cfg, ctx, view, msgs)
    else
      exists i :: 0 <= i < |msgs| && r == ResultAt(cfg, ctx, view, msgs, i) && AllSucceed(cfg, ctx, view, msgs[..i])
  }

  /** The context in which the ante handler runs. */
  function AnteCtx(mode: Mode, ctx: Ctx, validators: Bytes, txBytes: Option<Bytes>): Ctx {
    match mode
    case Check => ctx.(txBytes := txBytes)
    case Simulate => ctx.(txBytes := txBytes, isCheckTx := false)
    case Deliver => ctx.(txBytes := txBytes, validators := validators)
  }

  function RunAnte(cfg: Config, ctx: Ctx, view: View, tx: Tx): AnteEffect {
    if cfg.ante.None? then AnteEffect(map[], Continue(None)) else cfg.ante.value(ctx, view, tx)
  }

  predicate Runnable(cfg: Config, tx: Tx) {
    tx.msgs != [] && forall i :: 0 <= i < |tx.msgs| ==> cfg.validMsg(tx.msgs[i])
  }

  /** The contents after `runTx`: untouched if the transaction is malformed, otherwise the ante
      handler's writes, and on top of them all messages' writes or none. */
  ghost function TxView(cfg: Config, mode: Mode, st: Plain, validators: Bytes, txBytes: Option<Bytes>, tx: Tx): View {
    if !Runnable(cfg, tx) then st.view
    else
      var ctx := AnteCtx(mode, st.ctx, validators, txBytes);
      var a := RunAnte(cfg, ctx, st.view, tx);
      var v := Overlay(st.view, a.writes);
      if !a.outcome.Continue? then v
      else
        var ctx' := if a.outcome.ctx.Some? then a.outcome.ctx.value else ctx;
        if mode != Simulate && AllSucceed(cfg, ctx', v, tx.msgs) then Compose(cfg, ctx', v, tx.msgs) else v
  }

  /** The transaction is well formed, the ante handler lets it through and every message succeeds. */
  ghost predicate TxSucceeds(cfg: Config, mode: Mode, st: Plain, validators: Bytes, txBytes: Option<Bytes>, tx: Tx) {
    Runnable(cfg, tx) &&
    var ctx := AnteCtx(mode, st.ctx, validators, txBytes);
    var a := RunAnte(cfg, ctx, st.view, tx);
    a.outcome.Continue? &&
    AllSucceed(cfg, if a.outcome.ctx.Some? then a.outcome.ctx.value else ctx, Overlay(st.view, a.writes), tx.msgs)
  }

  datatype Step =
    | InitChain(chainId: Bytes, req: Bytes)
    | BeginBlock(header: Bytes, validators: Bytes, req: Bytes)
    | CheckTx(bytes: Bytes)
    | SimulateTx(bytes: Bytes)
    | StoreQuery(key: Bytes)
    | DeliverTx(bytes: Bytes)
    | EndBlock(req: Bytes)
    | Commit

  function Hook(h: Option<(Ctx, View, Bytes) -> Delta>, ctx: Ctx, view: View, req: Bytes): Delta {
    if h.None? then map[] else h.value(ctx, view, req)
  }

  function NewCtx(header: Bytes, isCheckTx: bool): Ctx {
    Ctx(header, isCheckTx, None, [])
  }

  /** What a transaction reports: the first of the tests that fails, in the order of the code. */
  ghost predicate FlatReport(cfg: Config, mode: Mode, st: Option<Plain>, validators: Bytes, txBytes: Option<Bytes>,
                             tx: Option<Tx>, r: Result)
  {
    if tx.None? then r == Undecodable
    else if tx.value.msgs == [] then r == NoMessages
    else if !Runnable(cfg, tx.value) then r == InvalidMessage
    else if st.None? then r == Recovered
    else TxReport(cfg, mode, st.value, validators, txBytes, tx.value, r)
  }

  ghost predicate TxReport(cfg: Config, mode: Mode, st: Plain, validators: Bytes, txBytes: Option<Bytes>, tx: Tx,
                           r: Result) {
    var ctx := AnteCtx(mode, st.ctx, validators, txBytes);
    var a := RunAnte(cfg, ctx, st.view, tx);
    match a.outcome
    case Abort => r == Aborted
    case AntePanic => r == Recovered
    case Continue(c) => MsgsReport(cfg, if c.Some? then c.value else ctx, Overlay(st.view, a.writes), tx.msgs, r)
  }

  /** The state is set, the bytes decode and the transaction succeeds. */
  ghost predicate FlatOk(cfg: Config, mode: Mode, st: Option<Plain>, validators: Bytes, txBytes: Option<Bytes>,
                         tx: Option<Tx>) {
    st.Some? && tx.Some? && TxSucceeds(cfg, mode, st.value, validators, txBytes, tx.value)
  }

  ghost function FlatTx(cfg: Config, mode: Mode, st: Option<Plain>, validators: Bytes, txBytes: Option<Bytes>,
                        tx: Option<Tx>): Option<Plain> {
    if st.None? || tx.None? then st
    else Some(Plain(TxView(cfg, mode, st.value, validators, txBytes, tx.value), st.value.ctx))
  }

  /** One call. `EndBlock` with an end blocker, and `Commit`, dereference the deliver state. */
  ghost predicate Enabled(cfg: Config, s: Flat, step: Step) {
    ((step.EndBlock? && cfg.endBlocker.Some?) || step.Commit?) ==> s.deliver.Some?
  }

  ghost function FlatStep(cfg: Config, s: Flat, step: Step): Flat
    requires Enabled(cfg, s, step)
  {
    match step
    case InitChain(id, req) =>
      var ctx := NewCtx(id, false);
      s.(check := Some(Plain(s.committed, NewCtx(id, true))),
         deliver := Some(Plain(Overlay(s.committed, Hook(cfg.initChainer, ctx, s.committed, req)), ctx)))
    case BeginBlock(h, vals, req) =>
      var st := if s.deliver.None? then Plain(s.committed, NewCtx(h, false))
                else Plain(s.deliver.value.view, s.deliver.value.ctx.(header := h));
      s.(deliver := Some(Plain(Overlay(st.view, Hook(cfg.beginBlocker, st.ctx, st.view, req)), st.ctx)),
         validators := vals)
    case CheckTx(b) => s.(check := FlatTx(cfg, Check, s.check, s.validators, Some(b), cfg.decode(b)))
    case SimulateTx(b) => s.(check := FlatTx(cfg, Simulate, s.check, s.validators, None, cfg.decode(b)))
    case StoreQuery(_) => s
    case DeliverTx(b) => s.(deliver := FlatTx(cfg, Deliver, s.deliver, s.validators, Some(b), cfg.decode(b)))
    case EndBlock(req) =>
      if cfg.endBlocker.None? then s
      else
        var st := s.deliver.value;
        s.(deliver := Some(Plain(Overlay(st.view, Hook(cfg.endBlocker, st.ctx, st.view, req)), st.ctx)))
    case Commit =>
      var st := s.deliver.value;
      s.(committed := st.view, check := Some(Plain(st.view, NewCtx(st.ctx.header, true))), deliver := None)
  }

  lemma PrefixSucceeds(cfg: Config, ctx: Ctx, view: View, msgs: seq<Msg>, n: nat)
    requires n <= |msgs| && forall j :: 0 <= j < n ==> SucceedsAt(cfg, ctx, view, msgs, j)
    ensures AllSucceed(cfg, ctx, view, msgs[..n])
  {
    forall j | 0 <= j < n ensures SucceedsAt(cfg, ctx, view, msgs[..n], j) {
      assert msgs[..n][..j] == msgs[..j];
      assert SucceedsAt(cfg, ctx, view, msgs, j);
    }
  }

  // ---------------------------------------------------------------------------------------------
  // The implementation: layers over one committed map

  datatype Layer = Layer(dirty: Delta, ctx: Ctx)

  class BaseApp {
    const cfg: Config
    var committed: View
    var checkState: Option<Layer>
    var deliverState: Option<Layer>
    var signedValidators: Bytes

    /** A newly loaded application. */
    constructor (cfg: Config, committed: View)
      ensures this.cfg == cfg && Abs() == Flat(committed, None, None, [])
    {
      this.cfg := cfg;
      this.committed := committed;
      checkState, deliverState, signedValidators := None, None, [];
    }

    ghost function AbsLayer(l: Option<Layer>): Option<Plain>
      reads this
    {
      if l.None? then None else Some(Plain(Overlay(committed, l.value.dirty), l.value.ctx))
    }

    /** The reference state this application stands for. */
    ghost function Abs(): Flat
      reads this
    {
      Flat(committed, AbsLayer(checkState), AbsLayer(deliverState), signedValidators)
    }

    /** The layer that a mode works on. */
    function Target(mode: Mode): Option<Layer>
      reads this
    {
      if mode == Deliver then deliverState else checkState
    }

    method SetTarget(mode: Mode, dirty: Delta)
      requires Target(mode).Some?
      modifies this
      ensures committed == old(committed) && signedValidators == old(signedValidators)
      ensures checkState == if mode == Deliver then old(checkState) else Some(old(checkState).value.(dirty := dirty))
      ensures deliverState ==
              if mode == Deliver then Some(old(deliverState).value.(dirty := dirty)) else old(deliverState)
    {
      if mode == Deliver {
        deliverState := Some(deliverState.value.(dirty := dirty));
      } else {
        checkState := Some(checkState.value.(dirty := dirty));
      }
    }

    method RunTx(mode: Mode, txBytes: Option<Bytes>, tx: Tx) returns (r: Result)
      modifies this
      ensures var st := FlatTx(cfg, mode, old(AbsLayer(Target(mode))), old(signedValidators), txBytes, Some(tx));
              Abs() == if mode == Deliver then old(Abs()).(deliver := st) else old(Abs()).(check := st)
      ensures r == OK <==>
              (old(Target(mode)).Some? &&
               TxSucceeds(cfg, mode, old(AbsLayer(Target(mode))).value, old(signedValidators), txBytes, tx))
      ensures FlatReport(cfg, mode, old(AbsLayer(Target(mode))), old(signedValidators), txBytes, Some(tx), r)
    {
      if tx.msgs == [] {
        return NoMessages;
      }
      for i := 0 to |tx.msgs|
        invariant forall j :: 0 <= j < i ==> cfg.validMsg(tx.msgs[j])
      {
        if !cfg.validMsg(tx.msgs[i]) {
          return InvalidMessage;
        }
      }
      if Target(mode).None? {
        return Recovered;
      }
      var l := Target(mode).value;
      var dirty;
      r, dirty := RunLayer(mode, l, txBytes, tx);
      SetTarget(mode, dirty);
    }

    /** Ante handler and messages on one layer; returns the layer's new dirty entries. */
    method RunLayer(mode: Mode, l: Layer, txBytes: Option<Bytes>, tx: Tx) returns (r: Result, dirty: Delta)
      requires Runnable(cfg, tx)
      ensures Overlay(committed, dirty) ==
              TxView(cfg, mode, Plain(Overlay(committed, l.dirty), l.ctx), signedValidators, txBytes, tx)
      ensures r == OK <==>
                TxSucceeds(cfg, mode, Plain(Overlay(committed, l.dirty), l.ctx), signedValidators, txBytes, tx)
      ensures TxReport(cfg, mode, Plain(Overlay(committed, l.dirty), l.ctx), signedValidators, txBytes, tx, r)
    {
      var ctx := AnteCtx(mode, l.ctx, signedValidators, txBytes);
      var a := RunAnte(cfg, ctx, Overlay(committed, l.dirty), tx);
      OverlayTwice(committed, l.dirty, a.writes);
      dirty := l.dirty + a.writes;
      if a.outcome == Abort {
        return Aborted, dirty;
      } else if a.outcome == AntePanic {
        return Recovered, dirty;
      }
      if a.outcome.ctx.Some? {
        ctx := a.outcome.ctx.value;
      }
      var cache;
      r, cache := RunMsgs(ctx, Overlay(committed, dirty), tx.msgs);
      if mode != Simulate && r == OK {
        OverlayTwice(committed, dirty, cache);
        dirty := dirty + cache;
      }
    }

    /** The message loop over a fresh cache of the contents `view`. */
    method RunMsgs(ctx: Ctx, view: View, msgs: seq<Msg>) returns (r: Result, cache: Delta)
      ensures r == OK <==> AllSucceed(cfg, ctx, view, msgs)
      ensures MsgsReport(cfg, ctx, view, msgs, r)
      ensures r == OK ==> Overlay(view, cache) == Compose(cfg, ctx, view, msgs)
    {
      cache := map[];
      OverlayNothing(view);
      var cur := view;
      for i := 0 to |msgs|
        invariant cur == Overlay(view, cache) == Compose(cfg, ctx, view, msgs[..i])
        invariant forall j :: 0 <= j < i ==> SucceedsAt(cfg, ctx, view, msgs, j)
      {
        assert msgs[..i + 1][..i] == msgs[..i];
        PrefixSucceeds(cfg, ctx, view, msgs, i);
        if !cfg.routes(msgs[i].route) {
          assert !SucceedsAt(cfg, ctx, view, msgs, i);
          assert NoRoute == ResultAt(cfg, ctx, view, msgs, i);
          return NoRoute, cache;
        }
        var e := cfg.handle(ctx, cur, msgs[i]);
        if e.outcome != Succeeded {
          assert !SucceedsAt(cfg, ctx, view, msgs, i);
          r := if e.outcome == Failed then MsgFailed else Recovered;
          assert r == ResultAt(cfg, ctx, view, msgs, i);
          return r, cache;
        }
        OverlayTwice(view, cache, e.writes);
        cache := cache + e.writes;
        cur := Overlay(view, cache);
      }
      assert msgs[..|msgs|] == msgs;
      r := OK;
    }

    /** `app.cms.CacheMultiStore()`: a layer that shows the committed contents. */
    method SetCheckState(header: Bytes)
      modifies this`checkState
      ensures AbsLayer(checkState) == Some(Plain(committed, NewCtx(header, true)))
    {
      OverlayNothing(committed);
      checkState := Some(Layer(map[], NewCtx(header, true)));
    }

    method SetDeliverState(header: Bytes)
      modifies this`deliverState
      ensures AbsLayer(deliverState) == Some(Plain(committed, NewCtx(header, false)))
    {
      OverlayNothing(committed);
      deliverState := Some(Layer(map[], NewCtx(header, false)));
    }

    /** Runs a hook on the deliver state. */
    method RunHook(h: Option<(Ctx, View, Bytes) -> Delta>, req: Bytes)
      requires deliverState.Some?
      modifies this`deliverState
      ensures AbsLayer(deliverState) ==
              var st := old(AbsLayer(deliverState)).value;
              Some(Plain(Overlay(st.view, Hook(h, st.ctx, st.view, req)), st.ctx))
    {
      var l := deliverState.value;
      var writes := Hook(h, l.ctx, Overlay(committed, l.dirty), req);
      OverlayTwice(committed, l.dirty, writes);
      deliverState := Some(l.(dirty := l.dirty + writes));
    }

    method DoInitChain(chainId: Bytes, req: Bytes)
      modifies this
      ensures Abs() == FlatStep(cfg, old(Abs()), InitChain(chainId, req))
    {
      OverlayNothing(committed);
      SetDeliverState(chainId);
      SetCheckState(chainId);
      RunHook(cfg.initChainer, req);
    }

    method DoBeginBlock(header: Bytes, validators: Bytes, req: Bytes)
      modifies this
      ensures Abs() == FlatStep(cfg, old(Abs()), BeginBlock(header, validators, req))
    {
      OverlayNothing(committed);
      if deliverState.None? {
        SetDeliverState(header);
      } else {
        deliverState := Some(deliverState.value.(ctx := deliverState.value.ctx.(header := header)));
      }
      RunHook(cfg.beginBlocker, req);
      signedValidators := validators;
    }

    method DoCheckTx(bytes: Bytes) returns (r: Result)
      modifies this
      ensures Abs() == FlatStep(cfg, old(Abs()), CheckTx(bytes))
      ensures r == OK <==> FlatOk(cfg, Check, old(Abs()).check, old(signedValidators), Some(bytes), cfg.decode(bytes))
      ensures FlatReport(cfg, Check, old(Abs()).check, old(signedValidators), Some(bytes), cfg.decode(bytes), r)
    {
      var tx := cfg.decode(bytes);
      if tx.None? {
        return Undecodable;
      }
      r := RunTx(Check, Some(bytes), tx.value);
    }

    method DoSimulate(bytes: Bytes) returns (r: Result)
      modifies this
      ensures Abs() == FlatStep(cfg, old(Abs()), SimulateTx(bytes))
      ensures r == OK <==> FlatOk(cfg, Simulate, old(Abs()).check, old(signedValidators), None, cfg.decode(bytes))
      ensures FlatReport(cfg, Simulate, old(Abs()).check, old(signedValidators), None, cfg.decode(bytes), r)
    {
      var tx := cfg.decode(bytes);
      if tx.None? {
        return Undecodable;
      }
      r := RunTx(Simulate, None, tx.value);
    }

    method DoStoreQuery(key: Bytes) returns (v: Option<Bytes>)
      ensures v == if key in committed then Some(committed[key]) else None
    {
      v := if key in committed then Some(committed[key]) else None;
    }

    method DoDeliverTx(bytes: Bytes) returns (r: Result)
      modifies this
      ensures Abs() == FlatStep(cfg, old(Abs()), DeliverTx(bytes))
      ensures r == OK <==>
                FlatOk(cfg, Deliver, old(Abs()).deliver, old(signedValidators), Some(bytes), cfg.decode(bytes))
      ensures FlatReport(cfg, Deliver, old(Abs()).deliver, old(signedValidators), Some(bytes), cfg.decode(bytes), r)
    {
      var tx := cfg.decode(bytes);
      if tx.None? {
        return Undecodable;
      }
      r := RunTx(Deliver, Some(bytes), tx.value);
    }

    method DoEndBlock(req: Bytes)
      requires cfg.endBlocker.Some? ==> deliverState.Some?
      modifies this
      ensures Abs() == FlatStep(cfg, old(Abs()), EndBlock(req))
    {
      if cfg.endBlocker.Some? {
        RunHook(cfg.endBlocker, req);
      }
    }

    /** Flushes the deliver layer into the committed contents and starts a new check layer. */
    method DoCommit()
      requires deliverState.Some?
      modifies this
      ensures Abs() == FlatStep(cfg, old(Abs()), Commit)
    {
      var header := deliverState.value.ctx.header;
      committed := Overlay(committed, deliverState.value.dirty);
      OverlayNothing(committed);
      SetCheckState(header);
      deliverState := None;
    }

    /** Any sequence of calls. */
    method RunAll(steps: seq<Step>)
      requires CanRun(cfg, Abs(), steps)
      modifies this
      ensures Abs() == FlatRun(cfg, old(Abs()), steps)
    {
      var i := 0;
      while i < |steps|
        invariant 0 <= i <= |steps|
        invariant CanRun(cfg, Abs(), steps[i..])
        invariant FlatRun(cfg, Abs(), steps[i..]) == FlatRun(cfg, old(Abs()), steps)
      {
        assert steps[i..][0] == steps[i] && steps[i..][1..] == steps[i + 1..];
        match steps[i] {
          case InitChain(id, req) => DoInitChain(id, req);
          case BeginBlock(h, vals, req) => DoBeginBlock(h, vals, req);
          case CheckTx(b) => var _ := DoCheckTx(b);
          case SimulateTx(b) => var _ := DoSimulate(b);
          case StoreQuery(k) => var _ := DoStoreQuery(k);
          case DeliverTx(b) => var _ := DoDeliverTx(b);
          case EndBlock(req) => DoEndBlock(req);
          case Commit => DoCommit();
        }
        i := i + 1;
      }
    }
  }

  // ---------------------------------------------------------------------------------------------
  // Whole runs

  /** Every call of the sequence finds the state it dereferences. */
  ghost predicate CanRun(cfg: Config, s: Flat, steps: seq<Step>)
    decreases |steps|
  {
    steps == [] || (Enabled(cfg, s, steps[0]) && CanRun(cfg, FlatStep(cfg, s, steps[0]), steps[1..]))
  }

  ghost function FlatRun(cfg: Config, s: Flat, steps: seq<Step>): Flat
    requires CanRun(cfg, s, steps)
    decreases |steps|
  {
    if steps == [] then s else FlatRun(cfg, FlatStep(cfg, s, steps[0]), steps[1..])
  }

  datatype Phase = Idle | Open | Closed

  /** The order in which the consensus engine makes its calls: blocks of `BeginBlock`, `DeliverTx`s,
      `EndBlock`, `Commit`, with `InitChain` possible before a block, and the other calls anywhere. */
  ghost predicate Ordered(p: Phase, steps: seq<Step>)
    decreases |steps|
  {
    steps == [] ||
    match steps[0]
    case InitChain(_, _) => p == Idle && Ordered(Idle, steps[1..])
    case BeginBlock(_, _, _) => p == Idle && Ordered(Open, steps[1..])
    case DeliverTx(_) => p == Open && Ordered(Open, steps[1..])
    case EndBlock(_) => p == Open && Ordered(Closed, steps[1..])
    case Commit => p == Closed && Ordered(Idle, steps[1..])
    case _ => Ordered(p, steps[1..])
  }

  /** Calls in protocol order never dereference a missing deliver state. */
  lemma {:induction false} OrderedCanRun(cfg: Config, s: Flat, p: Phase, steps: seq<Step>)
    requires Ordered(p, steps) && (p != Idle ==> s.deliver.Some?)
    ensures CanRun(cfg, s, steps)
    decreases |steps|
  {
    if steps != [] {
      var p' := match steps[0]
        case InitChain(_, _) => Idle
        case BeginBlock(_, _, _) => Open
        case DeliverTx(_) => Open
        case EndBlock(_) => Closed
        case Commit => Idle
        case _ => p;
      OrderedCanRun(cfg, FlatStep(cfg, s, steps[0]), p', steps[1..]);
    }
  }

  /** The calls that take part in consensus. */
  predicate Consensus(step: Step) {
    !step.CheckTx? && !step.SimulateTx? && !step.StoreQuery?
  }

  function ConsensusOnly(steps: seq<Step>): seq<Step> {
    if steps == [] then []
    else (if Consensus(steps[0]) then [steps[0]] else []) + ConsensusOnly(steps[1..])
  }

  /** The states agree on everything but the check state. */
  ghost predicate SameConsensus(a: Flat, b: Flat) {
    a.committed == b.committed && a.deliver == b.deliver && a.validators == b.validators
  }

  /** Checks, simulations and queries never influence the committed or the deliver state: a run
      reaches the same ones as the consensus calls of the run alone. */
  lemma {:induction false} ChecksDoNotInterfere(cfg: Config, a: Flat, b: Flat, steps: seq<Step>)
    requires SameConsensus(a, b) && CanRun(cfg, a, steps)
    ensures CanRun(cfg, b, ConsensusOnly(steps))
    ensures SameConsensus(FlatRun(cfg, a, steps), FlatRun(cfg, b, ConsensusOnly(steps)))
    decreases |steps|
  {
    if steps != [] {
      var c := ConsensusOnly(steps);
      var a' := FlatStep(cfg, a, steps[0]);
      if Consensus(steps[0]) {
        assert c[0] == steps[0] && c[1..] == ConsensusOnly(steps[1..]);
        ChecksDoNotInterfere(cfg, a', FlatStep(cfg, b, steps[0]), steps[1..]);
      } else {
        assert c == ConsensusOnly(steps[1..]);
        ChecksDoNotInterfere(cfg, a', b, steps[1..]);
      }
    }
  }

  /** Right after any `Commit` the check state shows the committed contents, and it keeps doing so
      under queries; only checks and simulations move it away. */
  lemma {:induction false} CheckFollowsCommit(cfg: Config, s: Flat, before: seq<Step>, after: seq<Step>)
    requires CanRun(cfg, s, before + [Commit] + after)
    requires forall i :: 0 <= i < |after| ==>
               after[i].StoreQuery? || after[i].BeginBlock? || after[i].DeliverTx? || after[i].EndBlock?
    ensures var e := FlatRun(cfg, s, before + [Commit] + after);
            e.check.Some? && e.check.value.view == e.committed
    decreases |before|
  {
    var all := before + [Commit] + after;
    if before != [] {
      assert all[1..] == before[1..] + [Commit] + after;
      CheckFollowsCommit(cfg, FlatStep(cfg, s, all[0]), before[1..], after);
    } else {
      assert all[1..] == after;
      QuietKeepsCheck(cfg, FlatStep(cfg, s, Commit), after);
    }
  }

  lemma {:induction false} QuietKeepsCheck(cfg: Config, s: Flat, steps: seq<Step>)
    requires CanRun(cfg, s, steps)
    requires forall i :: 0 <= i < |steps| ==>
               steps[i].StoreQuery? || steps[i].BeginBlock? || steps[i].DeliverTx? || steps[i].EndBlock?
    ensures var e := FlatRun(cfg, s, steps); e.check == s.check && e.committed == s.committed
    decreases |steps|
  {
    if steps != [] {
      QuietKeepsCheck(cfg, FlatStep(cfg, s, steps[0]), steps[1..]);
    }
  }

  // ---------------------------------------------------------------------------------------------
  // The committed contents as a fold over blocks

  datatype Genesis = Genesis(chainId: Bytes, req: Bytes)

  /** A block, with the `InitChain` calls made before it. */
  datatype Block = Block(genesis: seq<Genesis>, header: Bytes, validators: Bytes, beginReq: Bytes, txs: seq<Bytes>,
                         endReq: Bytes)

  function Delivers(txs: seq<Bytes>): seq<Step> {
    if txs == [] then [] else [DeliverTx(txs[0])] + Delivers(txs[1..])
  }

  function InitChains(genesis: seq<Genesis>): seq<Step> {
    if genesis == [] then [] else [InitChain(genesis[0].chainId, genesis[0].req)] + InitChains(genesis[1..])
  }

  /** The calls of a block from its beginning. */
  function BodyCalls(b: Block): seq<Step> {
    [BeginBlock(b.header, b.validators, b.beginReq)] + Delivers(b.txs) + [EndBlock(b.endReq), Commit]
  }

  function BlockCalls(b: Block): seq<Step> {
    InitChains(b.genesis) + BodyCalls(b)
  }

  function ChainCalls(blocks: seq<Block>): seq<Step> {
    if blocks == [] then [] else BlockCalls(blocks[0]) + ChainCalls(blocks[1..])
  }

  /** Delivering transactions one after another, on plain contents. */
  ghost function ExecTxs(cfg: Config, st: Plain, validators: Bytes, txs: seq<Bytes>): View
    decreases |txs|
  {
    if txs == [] then st.view
    else
      var tx := cfg.decode(txs[0]);
      var v := if tx.None? then st.view else TxView(cfg, Deliver, st, validators, Some(txs[0]), tx.value);
      ExecTxs(cfg, Plain(v, st.ctx), validators, txs[1..])
  }

  ghost function ExecBlock(cfg: Config, view: View, b: Block): View {
    var ctx := NewCtx(b.header, false);
    var v := Overlay(view, Hook(cfg.beginBlocker, ctx, view, b.beginReq));
    var v' := ExecTxs(cfg, Plain(v, ctx), b.validators, b.txs);
    Overlay(v', Hook(cfg.endBlocker, ctx, v', b.endReq))
  }

  /** The contents that a block starts from: those that the last `InitChain` before it left, if any, which
      starts over from the committed contents. */
  ghost function GenesisView(cfg: Config, committed: View, start: View, genesis: seq<Genesis>): View {
    if genesis == [] then start
    else
      var g := genesis[|genesis| - 1];
      Overlay(committed, Hook(cfg.initChainer, NewCtx(g.chainId, false), committed, g.req))
  }

  /** The fold over blocks; `start` is what the first one starts from unless it has a genesis. */
  ghost function ExecChain(cfg: Config, committed: View, start: View, blocks: seq<Block>): View
    decreases |blocks|
  {
    if blocks == [] then committed
    else
      var v := ExecBlock(cfg, GenesisView(cfg, committed, start, blocks[0].genesis), blocks[0]);
      ExecChain(cfg, v, v, blocks[1..])
  }

  lemma {:induction false} RunConcat(cfg: Config, s: Flat, a: seq<Step>, b: seq<Step>)
    requires CanRun(cfg, s, a) && CanRun(cfg, FlatRun(cfg, s, a), b)
    ensures CanRun(cfg, s, a + b) && FlatRun(cfg, s, a + b) == FlatRun(cfg, FlatRun(cfg, s, a), b)
    decreases |a|
  {
    if a == [] {
      assert a + b == b;
    } else {
      assert (a + b)[1..] == a[1..] + b;
      RunConcat(cfg, FlatStep(cfg, s, a[0]), a[1..], b);
    }
  }

  lemma {:induction false} RunDelivers(cfg: Config, s: Flat, txs: seq<Bytes>)
    requires s.deliver.Some?
    ensures CanRun(cfg, s, Delivers(txs))
    ensures FlatRun(cfg, s, Delivers(txs)) ==
            s.(deliver := Some(Plain(ExecTxs(cfg, s.deliver.value, s.validators, txs), s.deliver.value.ctx)))
    decreases |txs|
  {
    if txs != [] {
      var d := Delivers(txs);
      assert d[0] == DeliverTx(txs[0]) && d[1..] == Delivers(txs[1..]);
      RunDelivers(cfg, FlatStep(cfg, s, d[0]), txs[1..]);
    }
  }

  /** The contents a block starts from: the genesis writes, if pending, or the committed contents. */
  ghost function StartView(s: Flat): View {
    if s.deliver.None? then s.committed else s.deliver.value.view
  }

  /** Between blocks: nothing delivered yet, or `InitChain` just ran. */
  ghost predicate AtBoundary(s: Flat) {
    s.deliver.Some? ==> exists h :: s.deliver.value.ctx == NewCtx(h, false)
  }

  lemma EndAndCommit(cfg: Config, s: Flat, req: Bytes)
    requires s.deliver.Some?
    ensures CanRun(cfg, s, [EndBlock(req), Commit])
    ensures var e, st := FlatRun(cfg, s, [EndBlock(req), Commit]), s.deliver.value;
            e.deliver.None? && e.committed == Overlay(st.view, Hook(cfg.endBlocker, st.ctx, st.view, req))
  {
    var last := [EndBlock(req), Commit];
    OverlayNothing(s.deliver.value.view);
    var s' := FlatStep(cfg, s, last[0]);
    assert last[1..] == [Commit] && last[1..][1..] == [];
    assert FlatRun(cfg, s', [Commit]) == FlatStep(cfg, s', Commit);
  }

  lemma RunBody(cfg: Config, s: Flat, b: Block)
    requires AtBoundary(s)
    ensures CanRun(cfg, s, BodyCalls(b))
    ensures var e := FlatRun(cfg, s, BodyCalls(b)); e.deliver.None? && e.committed == ExecBlock(cfg, StartView(s), b)
  {
    var begin, last := BeginBlock(b.header, b.validators, b.beginReq), [EndBlock(b.endReq), Commit];
    var s1 := FlatStep(cfg, s, begin);
    assert s1.deliver.value.ctx == NewCtx(b.header, false);
    RunDelivers(cfg, s1, b.txs);
    EndAndCommit(cfg, FlatRun(cfg, s1, Delivers(b.txs)), b.endReq);
    RunConcat(cfg, s1, Delivers(b.txs), last);
    assert BodyCalls(b)[0] == begin && BodyCalls(b)[1..] == Delivers(b.txs) + last;
  }

  /** Of several `InitChain` calls only the last has an effect. */
  lemma {:induction false} RunGenesis(cfg: Config, s: Flat, genesis: seq<Genesis>)
    requires AtBoundary(s)
    ensures CanRun(cfg, s, InitChains(genesis))
    ensures var e := FlatRun(cfg, s, InitChains(genesis));
            && AtBoundary(e) && e.committed == s.committed
            && StartView(e) == GenesisView(cfg, s.committed, StartView(s), genesis)
    decreases |genesis|
  {
    if genesis != [] {
      var calls := InitChains(genesis);
      assert calls[0] == InitChain(genesis[0].chainId, genesis[0].req) && calls[1..] == InitChains(genesis[1..]);
      RunGenesis(cfg, FlatStep(cfg, s, calls[0]), genesis[1..]);
    }
  }

  lemma RunBlock(cfg: Config, s: Flat, b: Block)
    requires AtBoundary(s)
    ensures CanRun(cfg, s, BlockCalls(b))
    ensures var e := FlatRun(cfg, s, BlockCalls(b));
            e.deliver.None? && e.committed == ExecBlock(cfg, GenesisView(cfg, s.committed, StartView(s), b.genesis), b)
  {
    RunGenesis(cfg, s, b.genesis);
    RunBody(cfg, FlatRun(cfg, s, InitChains(b.genesis)), b);
    RunConcat(cfg, s, InitChains(b.genesis), BodyCalls(b));
  }

  lemma {:induction false} RunChain(cfg: Config, s: Flat, blocks: seq<Block>)
    requires AtBoundary(s)
    ensures CanRun(cfg, s, ChainCalls(blocks))
    ensures blocks != [] ==> FlatRun(cfg, s, ChainCalls(blocks)).deliver.None?
    ensures FlatRun(cfg, s, ChainCalls(blocks)).committed == ExecChain(cfg, s.committed, StartView(s), blocks)
    decreases |blocks|
  {
    if blocks != [] {
      RunBlock(cfg, s, blocks[0]);
      var s1 := FlatRun(cfg, s, BlockCalls(blocks[0]));
      RunChain(cfg, s1, blocks[1..]);
      RunConcat(cfg, s, BlockCalls(blocks[0]), ChainCalls(blocks[1..]));
    }
  }

  lemma {:induction false} NoCommitKeepsCommitted(cfg: Config, s: Flat, steps: seq<Step>)
    requires CanRun(cfg, s, steps) && Commit !in steps
    ensures FlatRun(cfg, s, steps).committed == s.committed
    decreases |steps|
  {
    if steps != [] {
      NoCommitKeepsCommitted(cfg, FlatStep(cfg, s, steps[0]), steps[1..]);
    }
  }

  lemma {:induction false} RunSplit(cfg: Config, s: Flat, a: seq<Step>, b: seq<Step>)
    requires CanRun(cfg, s, a + b)
    ensures CanRun(cfg, s, a) && CanRun(cfg, FlatRun(cfg, s, a), b)
    ensures FlatRun(cfg, s, a + b) == FlatRun(cfg, FlatRun(cfg, s, a), b)
    decreases |a|
  {
    if a == [] {
      assert a + b == b;
    } else {
      assert (a + b)[1..] == a[1..] + b;
      RunSplit(cfg, FlatStep(cfg, s, a[0]), a[1..], b);
    }
  }

  /** At every moment of a run, with checks, simulations and queries interleaved anywhere, the
      committed contents are the fold of the blocks committed so far over the starting contents. */
  lemma CommittedIsBlockFold(cfg: Config, s: Flat, steps: seq<Step>, blocks: seq<Block>, open: seq<Step>)
    requires AtBoundary(s) && CanRun(cfg, s, steps)
    requires ConsensusOnly(steps) == ChainCalls(blocks) + open && Commit !in open
    ensures FlatRun(cfg, s, steps).committed == ExecChain(cfg, s.committed, StartView(s), blocks)
  {
    ChecksDoNotInterfere(cfg, s, s, steps);
    RunSplit(cfg, s, ChainCalls(blocks), open);
    RunChain(cfg, s, blocks);
    NoCommitKeepsCommitted(cfg, FlatRun(cfg, s, ChainCalls(blocks)), open);
  }

  /** A chain started by `InitChain` commits the fold of its blocks over the genesis writes. */
  lemma GenesisThenBlocks(cfg: Config, s: Flat, id: Bytes, req: Bytes, steps: seq<Step>, blocks: seq<Block>,
                          open: seq<Step>)
    requires CanRun(cfg, s, [InitChain(id, req)] + steps)
    requires ConsensusOnly(steps) == ChainCalls(blocks) + open && Commit !in open
    ensures var start := Overlay(s.committed, Hook(cfg.initChainer, NewCtx(id, false), s.committed, req));
            FlatRun(cfg, s, [InitChain(id, req)] + steps).committed == ExecChain(cfg, s.committed, start, blocks)
  {
    var all := [InitChain(id, req)] + steps;
    assert all[1..] == steps;
    CommittedIsBlockFold(cfg, FlatStep(cfg, s, all[0]), steps, blocks, open);
  }

  lemma {:induction false} OrderedConsensus(p: Phase, steps: seq<Step>)
    requires Ordered(p, steps)
    ensures Ordered(p, ConsensusOnly(steps)) && forall x :: x in ConsensusOnly(steps) ==> Consensus(x) && x in steps
    decreases |steps|
  {
    if steps != [] {
      var rest := ConsensusOnly(steps[1..]);
      assert ([steps[0]] + rest)[1..] == rest && [] + rest == rest;
      match steps[0]
      case InitChain(_, _) => OrderedConsensus(Idle, steps[1..]);
      case BeginBlock(_, _, _) => OrderedConsensus(Open, steps[1..]);
      case DeliverTx(_) => OrderedConsensus(Open, steps[1..]);
      case EndBlock(_) => OrderedConsensus(Closed, steps[1..]);
      case Commit => OrderedConsensus(Idle, steps[1..]);
      case _ => OrderedConsensus(p, steps[1..]);
    }
  }

  lemma DeliversCons(tx: Bytes, txs: seq<Bytes>, after: seq<Step>)
    ensures Delivers([tx] + txs) + after == [DeliverTx(tx)] + (Delivers(txs) + after)
  {
    assert ([tx] + txs)[1..] == txs;
  }

  /** The calls of an open block up to its commit. */
  lemma {:induction false} ParseBlock(cs: seq<Step>) returns (txs: seq<Bytes>, endReq: Bytes, rest: seq<Step>)
    requires Ordered(Open, cs) && Commit in cs && forall x :: x in cs ==> Consensus(x)
    ensures cs == Delivers(txs) + ([EndBlock(endReq), Commit] + rest) && Ordered(Idle, rest)
    decreases |cs|
  {
    var tail := cs[1..];
    assert cs == [cs[0]] + tail;
    assert Consensus(cs[0]) && forall x :: x in tail ==> x in cs;
    if cs[0].DeliverTx? {
      txs, endReq, rest := ParseBlock(tail);
      DeliversCons(cs[0].bytes, txs, [EndBlock(endReq), Commit] + rest);
      txs := [cs[0].bytes] + txs;
    } else {
      assert cs[0].EndBlock? && Commit in tail && Consensus(tail[0]);
      txs, endReq, rest := [], cs[0].req, tail[1..];
      assert cs == [cs[0], tail[0]] + rest;
    }
  }

  lemma ChainCallsCons(b: Block, more: seq<Block>, open: seq<Step>)
    ensures ChainCalls([b] + more) + open == BlockCalls(b) + (ChainCalls(more) + open)
  {
    assert ([b] + more)[1..] == more;
  }

  /** The `InitChain` calls before a block. */
  lemma {:induction false} ParseGenesis(cs: seq<Step>) returns (genesis: seq<Genesis>, rest: seq<Step>)
    requires Ordered(Idle, cs) && Commit in cs && forall x :: x in cs ==> Consensus(x)
    ensures cs == InitChains(genesis) + rest && Ordered(Idle, rest) && Commit in rest && rest[0].BeginBlock?
    decreases |cs|
  {
    var tail := cs[1..];
    assert cs == [cs[0]] + tail;
    assert Consensus(cs[0]) && forall x :: x in tail ==> x in cs;
    if cs[0].InitChain? {
      genesis, rest := ParseGenesis(tail);
      var more := [Genesis(cs[0].chainId, cs[0].req)] + genesis;
      assert more[1..] == genesis;
      genesis := more;
    } else {
      genesis, rest := [], cs;
    }
  }

  lemma BlockAssociates(b: Block, rest: seq<Step>)
    ensures var begin, last := [BeginBlock(b.header, b.validators, b.beginReq)], [EndBlock(b.endReq), Commit];
            BlockCalls(b) + rest == InitChains(b.genesis) + (begin + (Delivers(b.txs) + (last + rest)))
  {
    var begin, last := [BeginBlock(b.header, b.validators, b.beginReq)], [EndBlock(b.endReq), Commit];
    assert begin + Delivers(b.txs) + last + rest == begin + (Delivers(b.txs) + (last + rest));
  }

  /** The first block. */
  lemma ParseFirst(cs: seq<Step>) returns (b: Block, rest: seq<Step>)
    requires Ordered(Idle, cs) && Commit in cs && forall x :: x in cs ==> Consensus(x)
    ensures cs == BlockCalls(b) + rest && Ordered(Idle, rest)
  {
    var genesis, body := ParseGenesis(cs);
    var begin, tail := body[0], body[1..];
    assert body == [begin] + tail;
    forall x | x in tail ensures Consensus(x) {
      assert x in body && x in cs;
    }
    var txs, endReq, after := ParseBlock(tail);
    b, rest := Block(genesis, begin.header, begin.validators, begin.req, txs, endReq), after;
    BlockAssociates(b, rest);
  }

  lemma {:induction false} ParseChain(cs: seq<Step>) returns (blocks: seq<Block>, open: seq<Step>)
    requires Ordered(Idle, cs) && forall x :: x in cs ==> Consensus(x)
    ensures cs == ChainCalls(blocks) + open && Commit !in open
    decreases |cs|
  {
    if Commit !in cs {
      blocks, open := [], cs;
    } else {
      var b, rest := ParseFirst(cs);
      forall x | x in rest ensures Consensus(x) {
        assert x in cs;
      }
      var more: seq<Block>;
      more, open := ParseChain(rest);
      ChainCallsCons(b, more, open);
      blocks := [b] + more;
    }
  }

  /** Every run in protocol order splits into committed blocks and an open rest, and its committed
      contents are the fold of those blocks. */
  lemma OrderedRunIsBlockFold(cfg: Config, s: Flat, steps: seq<Step>) returns (blocks: seq<Block>, open: seq<Step>)
    requires AtBoundary(s) && Ordered(Idle, steps)
    ensures CanRun(cfg, s, steps)
    ensures ConsensusOnly(steps) == ChainCalls(blocks) + open && Commit !in open
    ensures FlatRun(cfg, s, steps).committed == ExecChain(cfg, s.committed, StartView(s), blocks)
  {
    OrderedCanRun(cfg, s, Idle, steps);
    OrderedConsensus(Idle, steps);
    blocks, open := ParseChain(ConsensusOnly(steps));
    CommittedIsBlockFold(cfg, s, steps, blocks, open);
  }
}
