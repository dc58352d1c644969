/** The caches of the application show what the block state machine says. A store of the application is compared with
    the machine's contents, for handlers that make the calls behind the machine's layers of writes. */
module AppRefines {
  import opened ByteOrder
  import opened MergeIteration
  import opened StoreRuns
  import opened MultiStores
  import opened MultiRuns
  import A = AppStores
  import B = BaseApps

  ghost predicate SameView(st: Option<B.Plain>, views: Option<Views>, k: StoreKey) {
    st.Some? == views.Some? && (st.Some? ==> k in views.value && st.value.view == views.value[k])
  }

  /** Store `k` has the contents of the machine in all three states. */
  ghost predicate Agrees(t: A.Tiers, k: StoreKey, s: B.Flat) {
    && k in t.committed && s.committed == t.committed[k]
    && SameView(s.check, t.check, k) && SameView(s.deliver, t.deliver, k)
  }

  /** The calls write to store `k` what the layer does. */
  ghost predicate Writes(calls: seq<StoreCall>, k: StoreKey, delta: B.Delta) {
    A.DeltaOf(CallsOn(calls, k)) == delta
  }

  lemma AfterWrites(views: Views, calls: seq<StoreCall>, k: StoreKey, delta: B.Delta)
    requires k in views && Writes(calls, k, delta)
    ensures k in AllAfter(views, calls) && AllAfter(views, calls)[k] == Overlay(views[k], delta)
  {
    A.CallsAreDelta(views[k], CallsOn(calls, k));
  }

  /** The calls that a transaction makes: the ante handler's and, if it goes on, the messages', which are kept exactly
      when all succeed and the run is no simulation. */
  ghost predicate MakesCalls(cfg: B.Config, mode: B.Mode, st: B.Plain, validators: Bytes, txBytes: Option<Bytes>,
                             tx: B.Tx, k: StoreKey, ante: seq<StoreCall>, msgs: seq<StoreCall>, keep: bool)
  {
    var ctx := B.AnteCtx(mode, st.ctx, validators, txBytes);
    var a := B.RunAnte(cfg, ctx, st.view, tx);
    var v := Overlay(st.view, a.writes);
    && Writes(ante, k, a.writes)
    && if a.outcome.Continue? then
         var ctx' := if a.outcome.ctx.Some? then a.outcome.ctx.value else ctx;
         && B.Compose(cfg, ctx', v, tx.msgs) == After(v, CallsOn(msgs, k))
         && (keep <==> mode != B.Simulate && B.AllSucceed(cfg, ctx', v, tx.msgs))
       else !keep
  }

  lemma TxAgrees(cfg: B.Config, mode: B.Mode, st: B.Plain, validators: Bytes, txBytes: Option<Bytes>, tx: B.Tx,
                 views: Views, k: StoreKey, ante: seq<StoreCall>, msgs: seq<StoreCall>, keep: bool)
    requires k in views && views[k] == st.view && B.Runnable(cfg, tx)
    requires MakesCalls(cfg, mode, st, validators, txBytes, tx, k, ante, msgs, keep)
    ensures var v := A.TxViews(views, ante, msgs, keep);
            k in v && v[k] == B.TxView(cfg, mode, st, validators, txBytes, tx)
  {
    var a := B.RunAnte(cfg, B.AnteCtx(mode, st.ctx, validators, txBytes), st.view, tx);
    AfterWrites(views, ante, k, a.writes);
  }

  /** Steps of the application that make the calls of one call of the machine. */
  ghost predicate Realizes(cfg: B.Config, s: B.Flat, call: B.Step, k: StoreKey, steps: seq<A.Step>)
    requires B.Enabled(cfg, s, call)
  {
    match call
    case InitChain(id, req) =>
      && |steps| == 2 && steps[0] == A.Open && IsHook(steps[1])
      && Writes(steps[1].ante, k, B.Hook(cfg.initChainer, B.NewCtx(id, false), s.committed, req))
    case BeginBlock(h, vals, req) =>
      && |steps| == 2 && steps[0] == A.Begin && IsHook(steps[1])
      && var st := if s.deliver.None? then B.Plain(s.committed, B.NewCtx(h, false))
                   else B.Plain(s.deliver.value.view, s.deliver.value.ctx.(header := h));
         Writes(steps[1].ante, k, B.Hook(cfg.beginBlocker, st.ctx, st.view, req))
    case CheckTx(b) => RealizesTx(cfg, B.Check, s.check, s.validators, Some(b), cfg.decode(b), k, steps)
    case SimulateTx(b) => RealizesTx(cfg, B.Simulate, s.check, s.validators, None, cfg.decode(b), k, steps)
    case StoreQuery(_) => steps == []
    case DeliverTx(b) => RealizesTx(cfg, B.Deliver, s.deliver, s.validators, Some(b), cfg.decode(b), k, steps)
    case EndBlock(req) =>
      if cfg.endBlocker.None? then steps == []
      else
        var st := s.deliver.value;
        && |steps| == 1 && IsHook(steps[0])
        && Writes(steps[0].ante, k, B.Hook(cfg.endBlocker, st.ctx, st.view, req))
    case Commit => steps == [A.Commit]
  }

  /** Calls on the deliver state and nothing on top of it. */
  ghost predicate IsHook(step: A.Step) {
    step.Tx? && step.onDeliver && !step.keep
  }

  ghost predicate RealizesTx(cfg: B.Config, mode: B.Mode, st: Option<B.Plain>, validators: Bytes,
                             txBytes: Option<Bytes>, tx: Option<B.Tx>, k: StoreKey, steps: seq<A.Step>)
  {
    if st.None? || tx.None? || !B.Runnable(cfg, tx.value) then steps == []
    else
      && |steps| == 1 && steps[0].Tx? && (steps[0].onDeliver <==> mode == B.Deliver)
      && MakesCalls(cfg, mode, st.value, validators, txBytes, tx.value, k, steps[0].ante, steps[0].msgs, steps[0].keep)
  }

  lemma OneStep(t: A.Tiers, step: A.Step)
    ensures A.TierRun(t, [step]) == A.TierStep(t, step)
  {
    assert [step][..0] == [];
  }

  lemma TwoSteps(t: A.Tiers, first: A.Step, second: A.Step)
    ensures A.TierRun(t, [first, second]) == A.TierStep(A.TierStep(t, first), second)
  {
    assert [first, second][..1] == [first];
    OneStep(t, first);
  }

  /** A hook's calls on the deliver state. */
  lemma HookAgrees(t: A.Tiers, k: StoreKey, s: B.Flat, step: A.Step, delta: B.Delta, after: B.Flat)
    requires Agrees(t, k, s) && IsHook(step) && Writes(step.ante, k, delta) && s.deliver.Some? && after.deliver.Some?
    requires after.committed == s.committed && after.check == s.check
    requires after.deliver.value.view == Overlay(s.deliver.value.view, delta)
    ensures Agrees(A.TierStep(t, step), k, after)
  {
    AfterWrites(t.deliver.value, step.ante, k, delta);
  }

  lemma TxStepAgrees(cfg: B.Config, mode: B.Mode, t: A.Tiers, k: StoreKey, s: B.Flat, txBytes: Option<Bytes>,
                     tx: Option<B.Tx>, steps: seq<A.Step>)
    requires Agrees(t, k, s)
    requires var st := if mode == B.Deliver then s.deliver else s.check;
             RealizesTx(cfg, mode, st, s.validators, txBytes, tx, k, steps)
    ensures var st := if mode == B.Deliver then s.deliver else s.check;
            var st' := B.FlatTx(cfg, mode, st, s.validators, txBytes, tx);
            Agrees(A.TierRun(t, steps), k, if mode == B.Deliver then s.(deliver := st') else s.(check := st'))
  {
    var st := if mode == B.Deliver then s.deliver else s.check;
    if st.Some? && tx.Some? && B.Runnable(cfg, tx.value) {
      var step := steps[0];
      assert steps == [step];
      OneStep(t, step);
      TxAgrees(cfg, mode, st.value, s.validators, txBytes, tx.value, A.Target(t, step.onDeliver).value, k, step.ante,
               step.msgs, step.keep);
    }
  }

  /** One call of the machine, and the steps that make its calls. */
  lemma CallAgrees(cfg: B.Config, t: A.Tiers, k: StoreKey, s: B.Flat, call: B.Step, steps: seq<A.Step>)
    requires Agrees(t, k, s) && B.Enabled(cfg, s, call) && Realizes(cfg, s, call, k, steps)
    ensures Agrees(A.TierRun(t, steps), k, B.FlatStep(cfg, s, call))
  {
    match call
    case InitChain(id, req) => GenesisAgrees(cfg, t, k, s, id, req, steps);
    case BeginBlock(h, vals, req) => BeginAgrees(cfg, t, k, s, h, vals, req, steps);
    case CheckTx(b) => TxStepAgrees(cfg, B.Check, t, k, s, Some(b), cfg.decode(b), steps);
    case SimulateTx(b) => TxStepAgrees(cfg, B.Simulate, t, k, s, None, cfg.decode(b), steps);
    case StoreQuery(_) =>
    case DeliverTx(b) => TxStepAgrees(cfg, B.Deliver, t, k, s, Some(b), cfg.decode(b), steps);
    case EndBlock(req) => EndAgrees(cfg, t, k, s, req, steps);
    case Commit => OneStep(t, A.Commit);
  }

  lemma GenesisAgrees(cfg: B.Config, t: A.Tiers, k: StoreKey, s: B.Flat, id: Bytes, req: Bytes, steps: seq<A.Step>)
    requires Agrees(t, k, s) && Realizes(cfg, s, B.InitChain(id, req), k, steps)
    ensures Agrees(A.TierRun(t, steps), k, B.FlatStep(cfg, s, B.InitChain(id, req)))
  {
    assert steps == [A.Open, steps[1]];
    TwoSteps(t, A.Open, steps[1]);
    var ctx := B.NewCtx(id, false);
    var begun := s.(check := Some(B.Plain(s.committed, B.NewCtx(id, true))),
                    deliver := Some(B.Plain(s.committed, ctx)));
    HookAgrees(A.TierStep(t, A.Open), k, begun, steps[1], B.Hook(cfg.initChainer, ctx, s.committed, req),
               B.FlatStep(cfg, s, B.InitChain(id, req)));
  }

  lemma BeginAgrees(cfg: B.Config, t: A.Tiers, k: StoreKey, s: B.Flat, h: Bytes, vals: Bytes, req: Bytes,
                    steps: seq<A.Step>)
    requires Agrees(t, k, s) && Realizes(cfg, s, B.BeginBlock(h, vals, req), k, steps)
    ensures Agrees(A.TierRun(t, steps), k, B.FlatStep(cfg, s, B.BeginBlock(h, vals, req)))
  {
    assert steps == [A.Begin, steps[1]];
    TwoSteps(t, A.Begin, steps[1]);
    var st := if s.deliver.None? then B.Plain(s.committed, B.NewCtx(h, false))
              else B.Plain(s.deliver.value.view, s.deliver.value.ctx.(header := h));
    HookAgrees(A.TierStep(t, A.Begin), k, s.(deliver := Some(st)), steps[1],
               B.Hook(cfg.beginBlocker, st.ctx, st.view, req), B.FlatStep(cfg, s, B.BeginBlock(h, vals, req)));
  }

  lemma EndAgrees(cfg: B.Config, t: A.Tiers, k: StoreKey, s: B.Flat, req: Bytes, steps: seq<A.Step>)
    requires Agrees(t, k, s) && B.Enabled(cfg, s, B.EndBlock(req)) && Realizes(cfg, s, B.EndBlock(req), k, steps)
    ensures Agrees(A.TierRun(t, steps), k, B.FlatStep(cfg, s, B.EndBlock(req)))
  {
    if cfg.endBlocker.Some? {
      var st := s.deliver.value;
      assert steps == [steps[0]];
      OneStep(t, steps[0]);
      HookAgrees(t, k, s, steps[0], B.Hook(cfg.endBlocker, st.ctx, st.view, req),
                 B.FlatStep(cfg, s, B.EndBlock(req)));
    }
  }

  // ---------------------------------------------------------------------------------------------
  // Whole runs

  /** The steps of every call of a run. */
  ghost predicate RunRealizes(cfg: B.Config, s: B.Flat, calls: seq<B.Step>, k: StoreKey, parts: seq<seq<A.Step>>)
    requires B.CanRun(cfg, s, calls)
    decreases |calls|
  {
    |parts| == |calls| &&
    (calls == [] ||
     (Realizes(cfg, s, calls[0], k, parts[0]) &&
      RunRealizes(cfg, B.FlatStep(cfg, s, calls[0]), calls[1..], k, parts[1..])))
  }

  function Flatten(parts: seq<seq<A.Step>>): seq<A.Step> {
    if parts == [] then [] else parts[0] + Flatten(parts[1..])
  }

  lemma {:induction false} RunAppend(t: A.Tiers, a: seq<A.Step>, b: seq<A.Step>)
    ensures A.TierRun(t, a + b) == A.TierRun(A.TierRun(t, a), b)
    decreases |b|
  {
    if b == [] {
      assert a + b == a;
    } else {
      var n := |b| - 1;
      assert (a + b)[..|a| + n] == a + b[..n];
      RunAppend(t, a, b[..n]);
    }
  }

  /** Over any run of the block state machine, the caches and stores of the application that makes its calls show the
      machine's committed, check and deliver contents. */
  lemma {:induction false} RunAgrees(cfg: B.Config, t: A.Tiers, k: StoreKey, s: B.Flat, calls: seq<B.Step>,
                                     parts: seq<seq<A.Step>>)
    requires Agrees(t, k, s) && B.CanRun(cfg, s, calls) && RunRealizes(cfg, s, calls, k, parts)
    ensures Agrees(A.TierRun(t, Flatten(parts)), k, B.FlatRun(cfg, s, calls))
    decreases |calls|
  {
    if calls != [] {
      CallAgrees(cfg, t, k, s, calls[0], parts[0]);
      RunAppend(t, parts[0], Flatten(parts[1..]));
      RunAgrees(cfg, A.TierRun(t, parts[0]), k, B.FlatStep(cfg, s, calls[0]), calls[1..], parts[1..]);
    }
  }
}
