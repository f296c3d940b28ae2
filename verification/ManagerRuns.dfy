/**
 Whole runs of the channel manager: any sequence of the driver's operations,
 from a fresh manager on, keeps the invariant.
 */
module ManagerRuns {
  import opened BatcherTypes
  import opened Channels
  import opened ManagerState
  import opened ManagerInvariant
  import opened ManagerSteps
  import opened ManagerInvalidate
  import opened ManagerBuild
  import opened ManagerSync
  import opened SyncActions
  import Chains

  datatype Op<C> =
    | OpAdd(block: Block)
    | OpTxData(l1Head: nat, cfg: Config, env: Env<C>, env2: Env<C>)
    | OpFailed(id: TxId)
    | OpConfirmed(id: TxId, l1: nat)
    | OpSync(status: SyncStatus, prevL1: L1Ref, preferLocalSafe: bool)
    | OpClear(l1Origin: nat)

  /** A block that does not extend the chain is rejected and changes nothing. `None` is a panic. */
  function Apply<C(==)>(s: Mgr<C>, op: Op<C>): Option<Mgr<C>>
    requires s.WellFormed()
    requires op.OpFailed? && op.id in s.txs ==> CanFail(s.chans[s.txs[op.id]], op.id)
  {
    match op
    case OpAdd(b) => if AddL2Block(s, b).None? then Some(s) else AddL2Block(s, b)
    case OpTxData(l1Head, cfg, env, env2) =>
      var r := ManagerTxData(s, l1Head, cfg, env, env2);
      if r.None? then None else Some(r.value.0)
    case OpFailed(id) => Some(ManagerTxFailed(s, id))
    case OpConfirmed(id, l1) => ManagerTxConfirmed(s, id, l1)
    case OpSync(status, prevL1, preferLocalSafe) => SyncAndPrune(s, status, prevL1, preferLocalSafe)
    case OpClear(l1Origin) => Some(Clear(s, l1Origin))
  }

  /** What a caller can check before a channel is invalidated. */
  ghost predicate SafeToInvalidate<C>(s: Mgr<C>, c: C)
    requires s.WellFormed() && c in s.chans
  {
    if Owned(s, c) != [] then Frontier(s) <= Owned(s, c)[0].number else Dropped(s, c) == []
  }

  /** That check is exact: it holds if and only if invalidation neither panics nor loses a block. */
  lemma SafeInvalidation<C>(s: Mgr<C>, c: C)
    requires MgrInv(s) && QueuedOrStale(s, c)
    ensures SafeToInvalidate(s, c) <==> Invalidate(s, c).Some? && MgrInv(Invalidate(s, c).value)
    ensures Invalidate(s, c).Some? ==> Invalidate(s, c).value.WellFormed() && Excess(Invalidate(s, c).value) == Excess(s)
  {
    hide ChanInv, Conserved, Retained, Indexed, StaleBelow, TipOk, Distinct, Dropped, Excess;
    InvalidatePanics(s, c);
    if Invalidate(s, c).Some? {
      InvalidateExact(s, c);
    }
  }

  /** The confirmation times its channel out. */
  ghost predicate TimesOut<C>(s: Mgr<C>, id: TxId, l1: nat)
    requires s.WellFormed()
  {
    id in s.txs && TxConfirmed(s.chans[s.txs[id]], id, l1).1
  }

  /** What a caller can check before confirming a transaction. */
  ghost predicate SafeToConfirm<C>(s: Mgr<C>, id: TxId, l1: nat)
    requires s.WellFormed()
  {
    TimesOut(s, id, l1) ==> SafeToInvalidate(Recorded(s, id, l1), s.txs[id])
  }

  /**
   A confirmation keeps the invariant if and only if it does not time its channel out, or invalidating the
   channel is safe. A stale channel with blocks always panics here.
   */
  lemma TxConfirmedExact<C>(s: Mgr<C>, id: TxId, l1: nat)
    requires MgrInv(s)
    ensures var r := ManagerTxConfirmed(s, id, l1);
      && (r.Some? && MgrInv(r.value) <==> SafeToConfirm(s, id, l1))
      && (r.Some? ==> r.value.WellFormed() && Excess(r.value) == Excess(s))
  {
    hide ChanInv, Conserved, Retained, Indexed, TipOk, Distinct, Excess, TxConfirmed, Invalidate, SafeToInvalidate;
    if id in s.txs {
      RecordedKeeps(s, id, l1);
      TxConfirmedSameBlocks(s.chans[s.txs[id]], id, l1);
      if TimesOut(s, id, l1) {
        SafeInvalidation(Recorded(s, id, l1), s.txs[id]);
      }
    }
  }

  lemma TxConfirmedSameBlocks(c: Chan, id: TxId, l1: nat)
    ensures TxConfirmed(c, id, l1).0.builder.blocks == c.builder.blocks
  {
  }

  // ---------------------------------------------------------------- sending

  ghost predicate Switches<C>(s: Mgr<C>, op: Op<C>)
    requires s.WellFormed() && op.OpTxData?
  {
    var (s1, r1) := GetReadyChannel(s, op.l1Head, op.env);
    SwitchesDaType(s1, r1, op.cfg)
  }

  /** What a caller can check before the DA type is switched: the channel thrown away may be invalidated. */
  ghost predicate SwitchSafe<C>(s: Mgr<C>, op: Op<C>)
    requires s.WellFormed() && op.OpTxData?
  {
    Switches(s, op) ==>
      var (s1, r1) := GetReadyChannel(s, op.l1Head, op.env);
      SafeToInvalidate(s1, r1.channel)
  }

  /** The channel factory keeps its discipline, also when it is asked again after a switch. */
  ghost predicate FactoryOk<C>(s: Mgr<C>, op: Op<C>)
    requires s.WellFormed() && op.OpTxData?
  {
    && EnvOk(s, op.env)
    && (Switches(s, op) ==>
          var (s1, r1) := GetReadyChannel(s, op.l1Head, op.env);
          Invalidate(s1, r1.channel).Some? ==>
            Invalidate(s1, r1.channel).value.WellFormed() && EnvOk(Invalidate(s1, r1.channel).value, op.env2))
  }

  lemma SendFromKeeps<C>(s: Mgr<C>, r: Ready<C>)
    requires MgrInv(s) && (r.Ready? ==> r.channel in s.queue)
    ensures MgrInv(SendFrom(s, r).0) && Excess(SendFrom(s, r).0) == Excess(s)
  {
    hide ChanInv, Conserved, Retained, Indexed, StaleBelow, TipOk, Distinct, Excess, ManagerNextTx;
    if r.Ready? {
      NextTxKeeps(s, r.channel);
    }
  }

  /** Starting over after an invalidation that lost nothing. */
  lemma RebuildKeeps<C>(s: Mgr<C>, c: C, l1Head: nat, cfg: Config, env: Env<C>)
    requires MgrInv(s) && c in s.queue && cfg.Check() && SafeToInvalidate(s, c)
    requires Invalidate(s, c).Some? ==> Invalidate(s, c).value.WellFormed() && EnvOk(Invalidate(s, c).value, env)
    ensures var r := Rebuild(s, c, l1Head, cfg, env);
      r.Some? && MgrInv(r.value.0) && Excess(r.value.0) == Excess(s)
  {
    hide Shape, Conserved, Retained, Indexed, StaleBelow, TipOk, Excess;
    hide GetReadyChannel, Invalidate, SendFrom, SafeToInvalidate, EnvOk;
    ShapeWellFormed(s);
    SafeInvalidation(s, c);
    var s2 := Invalidate(s, c).value;
    SettingsKeep(s2, s2.l1OriginLast, cfg);
    EnvIgnoresCfg(s2, cfg, env);
    GetReadyKeeps(s2.(cfg := cfg), l1Head, env);
    var (s3, r3) := GetReadyChannel(s2.(cfg := cfg), l1Head, env);
    SendFromKeeps(s3, r3);
  }

  /** An invalidation that lost blocks is not made good by what is built afterwards. */
  lemma RebuildLoses<C>(s: Mgr<C>, c: C, l1Head: nat, cfg: Config, env: Env<C>)
    requires MgrInv(s) && c in s.queue && cfg.Check() && !SafeToInvalidate(s, c)
    requires Invalidate(s, c).Some? ==> Invalidate(s, c).value.WellFormed() && EnvOk(Invalidate(s, c).value, env)
    ensures var r := Rebuild(s, c, l1Head, cfg, env); r.Some? ==> !MgrInv(r.value.0)
  {
    hide Shape, Conserved, Retained, Indexed, StaleBelow, TipOk;
    hide GetReadyChannel, Invalidate, SendFrom, SafeToInvalidate, EnvOk;
    ShapeWellFormed(s);
    SafeInvalidation(s, c);
    if Invalidate(s, c).Some? {
      InvalidateRest(s, c);
      var s2 := Invalidate(s, c).value;
      CfgKeepsShape(s2, cfg);
      EnvIgnoresCfg(s2, cfg, env);
      GetReadyConserves(s2.(cfg := cfg), l1Head, env);
      var (s3, r3) := GetReadyChannel(s2.(cfg := cfg), l1Head, env);
      SendFromConserves(s3, r3);
    }
  }

  lemma CfgKeepsShape<C>(s: Mgr<C>, cfg: Config)
    requires Shape(s) && cfg.Check()
    ensures Shape(s.(cfg := cfg)) && (Conserved(s.(cfg := cfg)) <==> Conserved(s))
  {
    hide ChanInv, Distinct, Held, Chains.Chained;
  }

  /**
   Getting the next transaction keeps the invariant if and only if it does not switch the DA type, or the channel
   thrown away for the switch may be invalidated.
   */
  lemma TxDataExact<C>(s: Mgr<C>, op: Op<C>)
    requires MgrInv(s) && op.OpTxData? && op.cfg.Check() && FactoryOk(s, op)
    ensures Apply(s, op).Some? && MgrInv(Apply(s, op).value) <==> SwitchSafe(s, op)
    ensures SwitchSafe(s, op) ==> Excess(Apply(s, op).value) == Excess(s)
  {
    hide Shape, Conserved, Retained, Indexed, StaleBelow, TipOk, Excess;
    hide GetReadyChannel, Rebuild, SendFrom, SafeToInvalidate, EnvOk;
    ShapeWellFormed(s);
    GetReadyKeeps(s, op.l1Head, op.env);
    var (s1, r1) := GetReadyChannel(s, op.l1Head, op.env);
    if !SwitchesDaType(s1, r1, op.cfg) {
      SendFromKeeps(s1, r1);
    } else if SafeToInvalidate(s1, r1.channel) {
      RebuildKeeps(s1, r1.channel, op.l1Head, op.cfg, op.env2);
    } else {
      RebuildLoses(s1, r1.channel, op.l1Head, op.cfg, op.env2);
    }
  }

  lemma EnvIgnoresCfg<C>(s: Mgr<C>, cfg: Config, env: Env<C>)
    requires s.WellFormed() && EnvOk(s, env)
    ensures s.(cfg := cfg).WellFormed() && EnvOk(s.(cfg := cfg), env)
  {
  }

  // ---------------------------------------------------------------- runs

  /** The outside world's discipline, and no invalidation that the exact condition rules out. */
  ghost predicate Allowed<C>(s: Mgr<C>, op: Op<C>)
    requires s.WellFormed()
  {
    match op
    case OpAdd(b) => BlockOk(s, b)
    case OpTxData(_, cfg, _, _) => cfg.Check() && FactoryOk(s, op) && SwitchSafe(s, op)
    case OpConfirmed(id, l1) => SafeToConfirm(s, id, l1)
    case _ => true
  }

  /** A tick prunes no block that was not yet in a channel. */
  ghost predicate PrunesBelowCursor<C>(s: Mgr<C>, op: Op<C>)
    requires s.WellFormed()
  {
    op.OpSync? ==> ActionsFor(s, op.status, op.prevL1, op.preferLocalSafe).0.blocksToPrune <= s.cursor
  }

  lemma StepKeeps<C>(s: Mgr<C>, op: Op<C>)
    requires MgrInv(s) && Allowed(s, op)
    ensures op.OpFailed? && op.id in s.txs ==> CanFail(s.chans[s.txs[op.id]], op.id)
    ensures Apply(s, op).Some? && MgrInv(Apply(s, op).value)
    ensures 0 <= Excess(s) ==> 0 <= Excess(Apply(s, op).value)
    ensures Excess(s) == 0 && PrunesBelowCursor(s, op) ==> Excess(Apply(s, op).value) == 0
  {
    hide ChanInv, Conserved, Retained, Indexed, StaleBelow, TipOk, Distinct, Excess, FactoryOk, SwitchSafe, SafeToConfirm;
    hide ManagerTxData, ManagerTxConfirmed, ManagerTxFailed, AddL2Block, SyncAndPrune, ActionsFor, BlockOk, CanFail;
    match op
    case OpAdd(b) =>
      if AddL2Block(s, b).Some? {
        AddL2BlockKeeps(s, b);
        AddL2BlockCounts(s, b);
      }
    case OpTxData(_, _, _, _) =>
      TxDataExact(s, op);
    case OpFailed(id) =>
      TxFailedStep(s, id);
    case OpConfirmed(id, l1) =>
      TxConfirmedExact(s, id, l1);
    case OpSync(status, prevL1, preferLocalSafe) =>
      SyncKeeps(s, status, prevL1, preferLocalSafe);
    case OpClear(l1Origin) =>
      ClearKeeps(s, l1Origin);
  }

  /** `s'` is where the run `ops` leads from `s`, every operation being allowed when it happens. */
  ghost predicate Leads<C>(s: Mgr<C>, ops: seq<Op<C>>, s': Mgr<C>)
    requires MgrInv(s)
    decreases |ops|
  {
    if ops == [] then s' == s
    else
      && Allowed(s, ops[0])
      && (StepKeeps(s, ops[0]); Leads(Apply(s, ops[0]).value, ops[1..], s'))
  }

  ghost predicate AlwaysPrunesBelowCursor<C>(s: Mgr<C>, ops: seq<Op<C>>)
    requires MgrInv(s)
    decreases |ops|
  {
    ops == [] ||
    (&& PrunesBelowCursor(s, ops[0])
     && (Allowed(s, ops[0]) ==> (StepKeeps(s, ops[0]); AlwaysPrunesBelowCursor(Apply(s, ops[0]).value, ops[1..]))))
  }

  lemma {:induction false} RunKeeps<C>(s: Mgr<C>, ops: seq<Op<C>>, s': Mgr<C>)
    requires MgrInv(s) && Leads(s, ops, s')
    ensures MgrInv(s')
    ensures 0 <= Excess(s) ==> 0 <= Excess(s')
    ensures Excess(s) == 0 && AlwaysPrunesBelowCursor(s, ops) ==> Excess(s') == 0
    decreases |ops|
  {
    hide ChanInv, Conserved, Retained, Indexed, StaleBelow, TipOk, Distinct, Allowed, Apply, Excess, PrunesBelowCursor;
    if ops != [] {
      StepKeeps(s, ops[0]);
      RunKeeps(Apply(s, ops[0]).value, ops[1..], s');
    }
  }

  /** One more operation at the end of a run. */
  lemma {:induction false} LeadsOn<C>(s: Mgr<C>, ops: seq<Op<C>>, s1: Mgr<C>, op: Op<C>, s2: Mgr<C>)
    requires MgrInv(s) && Leads(s, ops, s1)
    requires s1.WellFormed() && Allowed(s1, op)
    requires op.OpFailed? && op.id in s1.txs ==> CanFail(s1.chans[s1.txs[op.id]], op.id)
    requires Apply(s1, op) == Some(s2)
    ensures Leads(s, ops + [op], s2)
    decreases |ops|
  {
    hide Shape, Conserved, Retained, Indexed, StaleBelow, TipOk, Allowed, Apply, CanFail;
    ShapeWellFormed(s);
    if ops == [] {
      StepKeeps(s, op);
      assert ([] + [op])[1..] == [];
      assert Leads(s2, [], s2);
    } else {
      StepKeeps(s, ops[0]);
      LeadsOn(Apply(s, ops[0]).value, ops[1..], s1, op, s2);
      assert (ops + [op])[1..] == ops[1..] + [op];
    }
  }

  /** A run of a fresh manager. */
  ghost predicate Reaches<C>(cfg: Config, ops: seq<Op<C>>, s: Mgr<C>) {
    cfg.Check() && (NewManagerInv<C>(cfg); Leads(NewManager<C>(cfg), ops, s))
  }

  lemma ReachesStart<C>(cfg: Config)
    requires cfg.Check()
    ensures Reaches<C>(cfg, [], NewManager(cfg))
  {
    hide MgrInv, NewManager;
    NewManagerInv<C>(cfg);
    assert Leads<C>(NewManager(cfg), [], NewManager(cfg));
  }

  lemma ReachesOn<C>(cfg: Config, ops: seq<Op<C>>, s1: Mgr<C>, op: Op<C>, s2: Mgr<C>)
    requires Reaches(cfg, ops, s1)
    requires s1.WellFormed() && Allowed(s1, op)
    requires op.OpFailed? && op.id in s1.txs ==> CanFail(s1.chans[s1.txs[op.id]], op.id)
    requires Apply(s1, op) == Some(s2)
    ensures Reaches(cfg, ops + [op], s2)
  {
    hide MgrInv, Leads, Allowed, Apply, CanFail;
    NewManagerInv<C>(cfg);
    LeadsOn(NewManager<C>(cfg), ops, s1, op, s2);
  }

  /**
   The batcher's design claim, for every run of a fresh manager: each queued block below the cursor is in exactly one
   channel and none at or above it is in any; the index and the channels agree on what is pending; a fully submitted
   channel has every frame confirmed; and the throttle never counts fewer bytes than are pending, nor more as long as
   only blocks below the cursor are pruned.
   */
  lemma EveryRun<C>(cfg: Config, ops: seq<Op<C>>, s: Mgr<C>)
    requires Reaches(cfg, ops, s)
    ensures s.WellFormed() && Consecutive(s.blocks)
    ensures forall i: nat :: i < |s.blocks| ==> (i < s.cursor <==> HeldSomewhere(s, s.blocks[i]))
    ensures forall k: nat, j: nat, k': nat, j': nat, b ::
      b in s.blocks && Holds(s, k, j, b) && Holds(s, k', j', b) ==> k == k' && j == j'
    ensures forall t :: t in s.txs ==> t in s.chans[s.txs[t]].pending
    ensures forall c, t :: c in s.queue && t in s.chans[c].pending ==> t in s.txs && s.txs[t] == c
    ensures forall c, f :: c in s.queue && s.chans[c].IsFullySubmitted() && 0 <= f < |s.chans[c].builder.frames| ==>
      FrameConfirmed(s.chans[c], f)
    ensures DaSum(s.blocks[s.cursor..]) <= s.pendingDaBytes
    ensures MgrInv(NewManager<C>(cfg)) && (AlwaysPrunesBelowCursor(NewManager<C>(cfg), ops) ==> s.pendingDaBytes == DaSum(s.blocks[s.cursor..]))
  {
    hide ChanInv, Chains.Chained, Holds, HeldSomewhere, FrameConfirmed, Leads, Held;
    NewManagerInv<C>(cfg);
    RunKeeps(NewManager<C>(cfg), ops, s);
    Chains.ChainedNumbers(Held(s.chans, s.queue), s.blocks, s.cursor);
    forall i: nat | i < |s.blocks|
      ensures i < s.cursor <==> HeldSomewhere(s, s.blocks[i])
      ensures forall k: nat, j: nat, k': nat, j': nat ::
        Holds(s, k, j, s.blocks[i]) && Holds(s, k', j', s.blocks[i]) ==> k == k' && j == j'
    {
      BlockOwnedOnce(s, i);
    }
    forall c, f | c in s.queue && s.chans[c].IsFullySubmitted() && 0 <= f < |s.chans[c].builder.frames|
      ensures FrameConfirmed(s.chans[c], f)
    {
      FullySubmittedMeansConfirmed(s.chans[c], f);
    }
  }
}
