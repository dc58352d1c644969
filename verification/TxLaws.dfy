/** What one call does to the three states, written out: an independent description of the reference machine. */
module TxLaws {
  import opened ByteOrder
  import opened MergeIteration
  import opened BaseApps

  // ---------------------------------------------------------------------------------------------
  // Transactions

  /** The views between the messages: each handler's writes on top of what its predecessors left. */
  ghost predicate Folds(cfg: Config, ctx: Ctx, start: View, msgs: seq<Msg>, vs: seq<View>) {
    && |vs| == |msgs| + 1 && vs[0] == start
    && forall i :: 0 <= i < |msgs| ==> vs[i + 1] == Overlay(vs[i], cfg.handle(ctx, vs[i], msgs[i]).writes)
  }

  /** Message `i` has a route and its handler succeeds. */
  ghost predicate GoodAt(cfg: Config, ctx: Ctx, msgs: seq<Msg>, vs: seq<View>, i: nat)
    requires |vs| == |msgs| + 1 && i < |msgs|
  {
    cfg.routes(msgs[i].route) && cfg.handle(ctx, vs[i], msgs[i]).outcome == Succeeded
  }

  ghost predicate AllGood(cfg: Config, ctx: Ctx, msgs: seq<Msg>, vs: seq<View>)
    requires |vs| == |msgs| + 1
  {
    forall i :: 0 <= i < |msgs| ==> GoodAt(cfg, ctx, msgs, vs, i)
  }

  /** All messages' writes or none. */
  ghost predicate MsgsRunTo(cfg: Config, ctx: Ctx, start: View, msgs: seq<Msg>, keep: bool, vs: seq<View>, after: View)
  {
    Folds(cfg, ctx, start, msgs, vs) && after == if keep && AllGood(cfg, ctx, msgs, vs) then vs[|msgs|] else start
  }

  /** The ante handler's writes stay in any case; its context, if it returns one, is that of the messages. */
  ghost predicate RunsTo(cfg: Config, ctx: Ctx, view: View, tx: Tx, keep: bool, vs: seq<View>, after: View) {
    match cfg.ante
    case None => MsgsRunTo(cfg, ctx, view, tx.msgs, keep, vs, after)
    case Some(f) =>
      var a := f(ctx, view, tx);
      var start := Overlay(view, a.writes);
      match a.outcome
      case Abort => after == start
      case AntePanic => after == start
      case Continue(c) => MsgsRunTo(cfg, if c.Some? then c.value else ctx, start, tx.msgs, keep, vs, after)
  }

  /** The ante handler lets the transaction through and every message succeeds. */
  ghost predicate Passes(cfg: Config, ctx: Ctx, view: View, tx: Tx, vs: seq<View>) {
    |vs| == |tx.msgs| + 1 &&
    match cfg.ante
    case None => AllGood(cfg, ctx, tx.msgs, vs)
    case Some(f) =>
      match f(ctx, view, tx).outcome
      case Continue(c) => AllGood(cfg, if c.Some? then c.value else ctx, tx.msgs, vs)
      case _ => false
  }

  ghost predicate Malformed(cfg: Config, tx: Option<Tx>) {
    tx.None? || tx.value.msgs == [] || exists i :: 0 <= i < |tx.value.msgs| && !cfg.validMsg(tx.value.msgs[i])
  }

  ghost function Views(cfg: Config, ctx: Ctx, start: View, msgs: seq<Msg>): (vs: seq<View>)
    ensures |vs| == |msgs| + 1
  {
    seq(|msgs| + 1, i requires 0 <= i <= |msgs| => Compose(cfg, ctx, start, msgs[..i]))
  }

  lemma ViewsFold(cfg: Config, ctx: Ctx, start: View, msgs: seq<Msg>)
    ensures Folds(cfg, ctx, start, msgs, Views(cfg, ctx, start, msgs))
    ensures AllGood(cfg, ctx, msgs, Views(cfg, ctx, start, msgs)) <==> AllSucceed(cfg, ctx, start, msgs)
    ensures Views(cfg, ctx, start, msgs)[|msgs|] == Compose(cfg, ctx, start, msgs)
  {
    var vs := Views(cfg, ctx, start, msgs);
    assert msgs[..|msgs|] == msgs && msgs[..0] == [];
    forall i | 0 <= i < |msgs|
      ensures vs[i + 1] == Overlay(vs[i], cfg.handle(ctx, vs[i], msgs[i]).writes)
      ensures SucceedsAt(cfg, ctx, start, msgs, i) <==> GoodAt(cfg, ctx, msgs, vs, i)
    {
      assert msgs[..i + 1][..i] == msgs[..i];
    }
    if AllGood(cfg, ctx, msgs, vs) {
      forall i | 0 <= i < |msgs| ensures SucceedsAt(cfg, ctx, start, msgs, i) {
        assert GoodAt(cfg, ctx, msgs, vs, i);
      }
    }
  }

  lemma TxViewRuns(cfg: Config, mode: Mode, st: Plain, validators: Bytes, txBytes: Option<Bytes>, tx: Tx)
      returns (vs: seq<View>)
    requires !Malformed(cfg, Some(tx))
    ensures RunsTo(cfg, AnteCtx(mode, st.ctx, validators, txBytes), st.view, tx, mode != Simulate, vs,
                   TxView(cfg, mode, st, validators, txBytes, tx))
    ensures TxSucceeds(cfg, mode, st, validators, txBytes, tx) <==>
            Passes(cfg, AnteCtx(mode, st.ctx, validators, txBytes), st.view, tx, vs)
  {
    var ctx := AnteCtx(mode, st.ctx, validators, txBytes);
    vs := [];
    match cfg.ante {
      case None =>
        OverlayNothing(st.view);
        ViewsFold(cfg, ctx, st.view, tx.msgs);
        vs := Views(cfg, ctx, st.view, tx.msgs);
      case Some(f) =>
        var a := f(ctx, st.view, tx);
        if a.outcome.Continue? {
          var ctx' := if a.outcome.ctx.Some? then a.outcome.ctx.value else ctx;
          ViewsFold(cfg, ctx', Overlay(st.view, a.writes), tx.msgs);
          vs := Views(cfg, ctx', Overlay(st.view, a.writes), tx.msgs);
        }
    }
  }

  /** `DeliverTx` works on the deliver state, with the validators of the block. */
  lemma DeliverTxLaw(cfg: Config, s: Flat, bytes: Bytes) returns (vs: seq<View>)
    ensures var tx, s' := cfg.decode(bytes), FlatStep(cfg, s, DeliverTx(bytes));
            if Malformed(cfg, tx) || s.deliver.None? then s' == s
            else
              var st := s.deliver.value;
              var ctx := Ctx(st.ctx.header, st.ctx.isCheckTx, Some(bytes), s.validators);
              && s' == s.(deliver := s'.deliver) && s'.deliver.Some? && s'.deliver.value.ctx == st.ctx
              && RunsTo(cfg, ctx, st.view, tx.value, true, vs, s'.deliver.value.view)
    ensures var tx := cfg.decode(bytes);
            FlatOk(cfg, Deliver, s.deliver, s.validators, Some(bytes), tx) <==>
              !Malformed(cfg, tx) && s.deliver.Some? &&
              var st := s.deliver.value;
              Passes(cfg, Ctx(st.ctx.header, st.ctx.isCheckTx, Some(bytes), s.validators), st.view, tx.value, vs)
  {
    var tx := cfg.decode(bytes);
    vs := [];
    if !Malformed(cfg, tx) && s.deliver.Some? {
      vs := TxViewRuns(cfg, Deliver, s.deliver.value, s.validators, Some(bytes), tx.value);
    }
  }

  /** `CheckTx` works on the check state. */
  lemma CheckTxLaw(cfg: Config, s: Flat, bytes: Bytes) returns (vs: seq<View>)
    ensures var tx, s' := cfg.decode(bytes), FlatStep(cfg, s, CheckTx(bytes));
            if Malformed(cfg, tx) || s.check.None? then s' == s
            else
              var st := s.check.value;
              var ctx := Ctx(st.ctx.header, st.ctx.isCheckTx, Some(bytes), st.ctx.validators);
              && s' == s.(check := s'.check) && s'.check.Some? && s'.check.value.ctx == st.ctx
              && RunsTo(cfg, ctx, st.view, tx.value, true, vs, s'.check.value.view)
    ensures var tx := cfg.decode(bytes);
            FlatOk(cfg, Check, s.check, s.validators, Some(bytes), tx) <==>
              !Malformed(cfg, tx) && s.check.Some? &&
              var st := s.check.value;
              Passes(cfg, Ctx(st.ctx.header, st.ctx.isCheckTx, Some(bytes), st.ctx.validators), st.view, tx.value, vs)
  {
    var tx := cfg.decode(bytes);
    vs := [];
    if !Malformed(cfg, tx) && s.check.Some? {
      vs := TxViewRuns(cfg, Check, s.check.value, s.validators, Some(bytes), tx.value);
    }
  }

  /** A simulation runs as if delivered, on the check state, and keeps no message's writes. */
  lemma SimulateTxLaw(cfg: Config, s: Flat, bytes: Bytes) returns (vs: seq<View>)
    ensures var tx, s' := cfg.decode(bytes), FlatStep(cfg, s, SimulateTx(bytes));
            if Malformed(cfg, tx) || s.check.None? then s' == s
            else
              var st := s.check.value;
              var ctx := Ctx(st.ctx.header, false, None, st.ctx.validators);
              && s' == s.(check := s'.check) && s'.check.Some? && s'.check.value.ctx == st.ctx
              && RunsTo(cfg, ctx, st.view, tx.value, false, vs, s'.check.value.view)
    ensures var tx := cfg.decode(bytes);
            FlatOk(cfg, Simulate, s.check, s.validators, None, tx) <==>
              !Malformed(cfg, tx) && s.check.Some? &&
              var st := s.check.value;
              Passes(cfg, Ctx(st.ctx.header, false, None, st.ctx.validators), st.view, tx.value, vs)
  {
    var tx := cfg.decode(bytes);
    vs := [];
    if !Malformed(cfg, tx) && s.check.Some? {
      vs := TxViewRuns(cfg, Simulate, s.check.value, s.validators, None, tx.value);
    }
  }

  // ---------------------------------------------------------------------------------------------
  // What a transaction reports

  /** Message `i` is the first that is not good, and `r` says why. */
  ghost predicate FailsFirst(cfg: Config, ctx: Ctx, msgs: seq<Msg>, vs: seq<View>, i: nat, r: Result)
    requires |vs| == |msgs| + 1 && i < |msgs|
  {
    && (forall j :: 0 <= j < i ==> GoodAt(cfg, ctx, msgs, vs, j)) && !GoodAt(cfg, ctx, msgs, vs, i)
    && r == if !cfg.routes(msgs[i].route) then NoRoute
            else if cfg.handle(ctx, vs[i], msgs[i]).outcome == Failed then MsgFailed
            else Recovered
  }

  ghost predicate MsgsSay(cfg: Config, ctx: Ctx, msgs: seq<Msg>, vs: seq<View>, r: Result)
    requires |vs| == |msgs| + 1
  {
    if AllGood(cfg, ctx, msgs, vs) then r == OK
    else exists i :: 0 <= i < |msgs| && FailsFirst(cfg, ctx, msgs, vs, i, r)
  }

  ghost predicate Says(cfg: Config, ctx: Ctx, view: View, tx: Tx, vs: seq<View>, r: Result) {
    match cfg.ante
    case None => Folds(cfg, ctx, view, tx.msgs, vs) && MsgsSay(cfg, ctx, tx.msgs, vs, r)
    case Some(f) =>
      var a := f(ctx, view, tx);
      match a.outcome
      case Abort => r == Aborted
      case AntePanic => r == Recovered
      case Continue(c) =>
        var ctx' := if c.Some? then c.value else ctx;
        Folds(cfg, ctx', Overlay(view, a.writes), tx.msgs, vs) && MsgsSay(cfg, ctx', tx.msgs, vs, r)
  }

  lemma GoodIff(cfg: Config, ctx: Ctx, start: View, msgs: seq<Msg>, i: nat)
    requires i < |msgs|
    ensures Views(cfg, ctx, start, msgs)[i] == Compose(cfg, ctx, start, msgs[..i])
    ensures GoodAt(cfg, ctx, msgs, Views(cfg, ctx, start, msgs), i) <==> SucceedsAt(cfg, ctx, start, msgs, i)
  {
  }

  lemma PrefixGood(cfg: Config, ctx: Ctx, start: View, msgs: seq<Msg>, i: nat, j: nat)
    requires j < i < |msgs| && AllSucceed(cfg, ctx, start, msgs[..i])
    ensures GoodAt(cfg, ctx, msgs, Views(cfg, ctx, start, msgs), j)
  {
    assert SucceedsAt(cfg, ctx, start, msgs[..i], j) && msgs[..i][..j] == msgs[..j];
    GoodIff(cfg, ctx, start, msgs, j);
  }

  lemma FirstFailure(cfg: Config, ctx: Ctx, start: View, msgs: seq<Msg>, i: nat, r: Result)
    requires i < |msgs| && r != OK && r == ResultAt(cfg, ctx, start, msgs, i) && AllSucceed(cfg, ctx, start, msgs[..i])
    ensures FailsFirst(cfg, ctx, msgs, Views(cfg, ctx, start, msgs), i, r)
  {
    GoodIff(cfg, ctx, start, msgs, i);
    forall j | 0 <= j < i ensures GoodAt(cfg, ctx, msgs, Views(cfg, ctx, start, msgs), j) {
      PrefixGood(cfg, ctx, start, msgs, i, j);
    }
  }

  lemma MsgsSayWhatTheyReport(cfg: Config, ctx: Ctx, start: View, msgs: seq<Msg>, r: Result)
    requires MsgsReport(cfg, ctx, start, msgs, r)
    ensures MsgsSay(cfg, ctx, msgs, Views(cfg, ctx, start, msgs), r)
  {
    if r == OK {
      ViewsFold(cfg, ctx, start, msgs);
    } else {
      var i :| 0 <= i < |msgs| && r == ResultAt(cfg, ctx, start, msgs, i) && AllSucceed(cfg, ctx, start, msgs[..i]);
      FirstFailure(cfg, ctx, start, msgs, i, r);
    }
  }

  lemma SaysWhatItReports(cfg: Config, mode: Mode, st: Plain, validators: Bytes, txBytes: Option<Bytes>, tx: Tx,
                          r: Result)
      returns (vs: seq<View>)
    requires TxReport(cfg, mode, st, validators, txBytes, tx, r)
    ensures Says(cfg, AnteCtx(mode, st.ctx, validators, txBytes), st.view, tx, vs, r)
  {
    var ctx := AnteCtx(mode, st.ctx, validators, txBytes);
    vs := [];
    match cfg.ante {
      case None =>
        OverlayNothing(st.view);
        ViewsFold(cfg, ctx, st.view, tx.msgs);
        MsgsSayWhatTheyReport(cfg, ctx, st.view, tx.msgs, r);
        vs := Views(cfg, ctx, st.view, tx.msgs);
      case Some(f) =>
        var a := f(ctx, st.view, tx);
        if a.outcome.Continue? {
          var ctx' := if a.outcome.ctx.Some? then a.outcome.ctx.value else ctx;
          var start := Overlay(st.view, a.writes);
          ViewsFold(cfg, ctx', start, tx.msgs);
          MsgsSayWhatTheyReport(cfg, ctx', start, tx.msgs, r);
          vs := Views(cfg, ctx', start, tx.msgs);
        }
    }
  }

  /** A transaction reports what stopped it: the decoder, the lack of messages, an invalid message, a missing state, the
      ante handler, or the first message that has no route, fails or panics; otherwise success. */
  lemma ReportLaw(cfg: Config, mode: Mode, st: Option<Plain>, validators: Bytes, txBytes: Option<Bytes>, tx: Option<Tx>,
                  r: Result)
      returns (vs: seq<View>)
    requires FlatReport(cfg, mode, st, validators, txBytes, tx, r)
    ensures if tx.None? then r == Undecodable
            else if tx.value.msgs == [] then r == NoMessages
            else if Malformed(cfg, tx) then r == InvalidMessage
            else if st.None? then r == Recovered
            else
              var ctx := match mode
                case Check => st.value.ctx.(txBytes := txBytes)
                case Simulate => st.value.ctx.(txBytes := txBytes, isCheckTx := false)
                case Deliver => st.value.ctx.(txBytes := txBytes, validators := validators);
              Says(cfg, ctx, st.value.view, tx.value, vs, r)
  {
    vs := [];
    if !Malformed(cfg, tx) && st.Some? {
      vs := SaysWhatItReports(cfg, mode, st.value, validators, txBytes, tx.value, r);
    }
  }

  // ---------------------------------------------------------------------------------------------
  // The other calls

  /** `InitChain` starts both states from the committed contents; the hook works on the deliver state. */
  lemma InitChainLaw(cfg: Config, s: Flat, id: Bytes, req: Bytes)
    ensures var s' := FlatStep(cfg, s, InitChain(id, req));
            && s'.committed == s.committed && s'.validators == s.validators
            && s'.check == Some(Plain(s.committed, Ctx(id, true, None, [])))
            && s'.deliver.Some? && s'.deliver.value.ctx == Ctx(id, false, None, [])
            && s'.deliver.value.view ==
               match cfg.initChainer
               case None => s.committed
               case Some(h) => Overlay(s.committed, h(Ctx(id, false, None, []), s.committed, req))
  {
    OverlayNothing(s.committed);
  }

  /** `BeginBlock` starts the deliver state, or goes on with a pending one under the new header. */
  lemma BeginBlockLaw(cfg: Config, s: Flat, header: Bytes, validators: Bytes, req: Bytes)
    ensures var s' := FlatStep(cfg, s, BeginBlock(header, validators, req));
            var start := if s.deliver.Some? then s.deliver.value.view else s.committed;
            var ctx := if s.deliver.Some? then s.deliver.value.ctx.(header := header) else Ctx(header, false, None, []);
            && s'.committed == s.committed && s'.check == s.check && s'.validators == validators
            && s'.deliver.Some? && s'.deliver.value.ctx == ctx
            && s'.deliver.value.view ==
               match cfg.beginBlocker
               case None => start
               case Some(h) => Overlay(start, h(ctx, start, req))
  {
    OverlayNothing(s.committed);
    if s.deliver.Some? {
      OverlayNothing(s.deliver.value.view);
    }
  }

  /** `EndBlock` runs its hook on the deliver state. */
  lemma EndBlockLaw(cfg: Config, s: Flat, req: Bytes)
    requires s.deliver.Some?
    ensures var s', st := FlatStep(cfg, s, EndBlock(req)), s.deliver.value;
            && s' == s.(deliver := s'.deliver) && s'.deliver.Some? && s'.deliver.value.ctx == st.ctx
            && s'.deliver.value.view ==
               match cfg.endBlocker
               case None => st.view
               case Some(h) => Overlay(st.view, h(st.ctx, st.view, req))
  {
  }

  /** `Commit` makes the deliver state the committed one and the check state a view of it. */
  lemma CommitLaw(cfg: Config, s: Flat)
    requires s.deliver.Some?
    ensures var st := s.deliver.value;
            FlatStep(cfg, s, Commit) ==
            Flat(st.view, Some(Plain(st.view, Ctx(st.ctx.header, true, None, []))), None, s.validators)
  {
  }
}
