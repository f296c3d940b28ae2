/**
 A run in which a block is lost. A channel that was full before it got a block
 still sends its (header-only) frame. When that transaction fails, the channel is
 first in line again with nothing submitted, so a switch of the DA type throws it
 away, and the channels after it, although the cursor stays where it is.
 */
module ManagerLoss {
  import opened BatcherTypes
  import opened ChannelBuilders
  import opened Channels
  import opened ManagerState
  import opened ManagerInvariant
  import opened ManagerBuild
  import opened ManagerRuns
  import opened Keys

  const CFG := Config(false, 1, 50, 0, 100, 10)
  const BLOBS := CFG.(useBlobs := true)
  const BLOCK := Block(1, 7, 9, 50, 70)
  const ID_A: ChannelId := [1, 0, 0, 0, 0, 0, 0, 0, 0, 0, 0, 0, 0, 0, 0, 0]
  const ID_B: ChannelId := [2, 0, 0, 0, 0, 0, 0, 0, 0, 0, 0, 0, 0, 0, 0, 0]
  const ID_C: ChannelId := [3, 0, 0, 0, 0, 0, 0, 0, 0, 0, 0, 0, 0, 0, 0, 0]
  const TX_A: TxId := [FrameId(ID_A, 0)]
  const TX_B0: TxId := [FrameId(ID_B, 0)]
  const ENV_A: Env<nat> := Env(Some(0), ID_A, [Refused(TooManyRlpBytes)], FrameScript([[]], false))
  const ENV_B: Env<nat> := Env(Some(1), ID_B, [Added(None)], FrameScript([[], []], false))
  const ENV_C: Env<nat> := Env(Some(2), ID_C, [], FrameScript([], false))
  const ADD: Op<nat> := OpAdd(BLOCK)
  const SEND_A: Op<nat> := OpTxData(60, CFG, ENV_A, ENV_A)
  const SEND_B: Op<nat> := OpTxData(60, CFG, ENV_B, ENV_B)
  const FAIL_A: Op<nat> := OpFailed(TX_A)
  const SWITCH: Op<nat> := OpTxData(62, BLOBS, ENV_C, ENV_C)

  /** The builder a new channel ends up with. */
  function BuilderOf<C(==)>(s: Mgr<C>, l1Head: nat, env: Env<C>): Builder
    requires s.WellFormed()
  {
    var out := AddLoop(NewBuilder(s.cfg, env.id, s.l1OriginLast), s.blocks[s.cursor..], env.answers);
    OutputFrames(CheckTimeout(out.builder, l1Head), env.script).0
  }

  /** Building and sending from a new channel in one call, with nothing going wrong. */
  lemma SendNew<C>(s: Mgr<C>, l1Head: nat, env: Env<C>, added: nat)
    requires s.WellFormed() && env.newborn.Some? && env.newborn.value !in s.chans && !HasSpace(s) && !env.script.fails
    requires FirstWithTxData(s.chans, s.queue).None? && s.cursor + added <= |s.blocks| && s.cursor < |s.blocks|
    requires var out := AddLoop(NewBuilder(s.cfg, env.id, s.l1OriginLast), s.blocks[s.cursor..], env.answers);
      out.ok && out.added == added && !out.builder.closed
    requires NewChan(s.cfg, env.id, s.l1OriginLast).(builder := BuilderOf(s, l1Head, env)).HasTxData()
    ensures var ch := NewChan(s.cfg, env.id, s.l1OriginLast).(builder := BuilderOf(s, l1Head, env));
      GetReadyChannel(s, l1Head, env) ==
        (s.(current := env.newborn, queue := s.queue + [env.newborn.value], chans := s.chans[env.newborn.value := ch],
            cursor := s.cursor + added,
            pendingDaBytes := s.pendingDaBytes - DaSum(s.blocks[s.cursor..s.cursor + added])), Ready(env.newborn.value))
  {
    hide AddLoop, OutputAll, DaSum, NewBuilder, FirstWithTxData;
    var s0 := EnsureChannelWithSpace(s, env);
    var s1 := ProcessBlocks(s0, env.answers).0;
    var s2 := SetBuilder(s1, CheckTimeout(CurrentBuilder(s1), l1Head));
    var s3 := SetBuilder(s2, BuilderOf(s, l1Head, env));
    assert s3.chans == s.chans[env.newborn.value := s3.chans[env.newborn.value]];
  }

  /** The ids are such as the channel factory makes. */
  lemma ProperIds()
    ensures ProperId(ID_A) && ProperId(ID_B) && ProperId(ID_C)
  {
    assert ID_A[0] != ZERO_ID[0] && ID_B[0] != ZERO_ID[0] && ID_C[0] != ZERO_ID[0];
  }

  // ---------------------------------------------------------------- the states

  const FULL := Builder(CFG, ID_A, 0, Unset, Some(TooManyRlpBytes), [], 0, 0, [], 0, false)
  const FRAME_A := Frame(FrameId(ID_A, 0), [])
  const FRAMES_B := [Frame(FrameId(ID_B, 0), []), Frame(FrameId(ID_B, 1), [])]
  const UNSENT_A := Chan(FULL.(closed := true, frames := [FRAME_A]), map[], map[], UINT64_RANGE - 1, 0)
  const SENT_A := UNSENT_A.(builder := UNSENT_A.builder.(frameCursor := 1), pending := map[TX_A := TxData([FRAME_A], false)])
  const BUILT_B := Builder(CFG, ID_B, 140, SeqWindowClose, None, [BLOCK], 50, 7, [], 0, false)
  const SENT_B := Chan(BUILT_B.(frames := FRAMES_B, frameCursor := 1), map[TX_B0 := TxData([FRAMES_B[0]], false)], map[],
                       UINT64_RANGE - 1, 0)

  function AfterAdd(): Mgr<nat> {
    Mgr([BLOCK], 0, 0, CFG, 1, 7, None, [], map[], map[], 70)
  }

  function AfterSendA(): Mgr<nat> {
    AfterAdd().(current := Some(0), queue := [0], chans := map[0 := SENT_A], txs := map[TX_A := 0])
  }

  function AfterSendB(): Mgr<nat> {
    Mgr([BLOCK], 1, 50, CFG, 1, 7, Some(1), [0, 1], map[0 := SENT_A, 1 := SENT_B], map[TX_A := 0, TX_B0 := 1], 0)
  }

  function AfterFailA(): Mgr<nat> {
    AfterSendB().(chans := map[0 := UNSENT_A, 1 := SENT_B], txs := map[TX_B0 := 1])
  }

  function AfterSwitch(): Mgr<nat> {
    AfterFailA().(cfg := BLOBS, current := None, queue := [], txs := map[])
  }

  // ---------------------------------------------------------------- the steps

  lemma EmitOne(b: Builder)
    requires b.frames == []
    ensures OutputAll(b, [[]]) == b.(frames := [Frame(FrameId(b.id, 0), [])])
  {
    var one: seq<Bytes> := [[]];
    assert one[..0] == [];
    assert OutputAll(b, one[..0]) == b;
  }

  lemma EmitTwo(b: Builder)
    requires b.frames == []
    ensures OutputAll(b, [[], []]) == b.(frames := [Frame(FrameId(b.id, 0), []), Frame(FrameId(b.id, 1), [])])
  {
    var two: seq<Bytes> := [[], []];
    assert two[..1] == [[]];
    EmitOne(b);
  }

  lemma StepAdd()
    ensures Apply(NewManager<nat>(CFG), ADD) == Some(AfterAdd())
  {
    assert NewManager<nat>(CFG).blocks + [BLOCK] == [BLOCK];
  }

  lemma FillA()
    ensures var s := AfterAdd();
      && AddLoop(NewBuilder(CFG, ID_A, 0), s.blocks[s.cursor..], ENV_A.answers) == LoopOut(FULL, 0, true)
      && BuilderOf(s, 60, ENV_A) == FULL.(closed := true, frames := [FRAME_A])
  {
    hide OutputAll;
    var s := AfterAdd();
    assert s.blocks[0..] == [BLOCK];
    EmitOne(FULL.(closed := true));
  }

  lemma StepSendA()
    ensures Apply(AfterAdd(), SEND_A) == Some(AfterSendA())
  {
    hide OutputAll, GetReadyChannel, BuilderOf;
    var s := AfterAdd();
    FillA();
    SendNew(s, 60, ENV_A, 0);
    var (s1, r) := GetReadyChannel(s, 60, ENV_A);
    assert s.queue + [0] == [0];
    assert s1.chans[0].builder.frames[0..1] == [FRAME_A];
    assert IdOf([FRAME_A]) == TX_A;
    assert ManagerNextTx(s1, 0).0.chans == map[0 := SENT_A];
  }

  lemma FillB()
    ensures var s := AfterSendA();
      && AddLoop(NewBuilder(CFG, ID_B, 0), s.blocks[s.cursor..], ENV_B.answers) == LoopOut(BUILT_B, 1, true)
      && BuilderOf(s, 60, ENV_B) == BUILT_B.(frames := FRAMES_B)
  {
    hide OutputAll;
    var s := AfterSendA();
    assert s.blocks[0..] == [BLOCK];
    assert NewBuilder(CFG, ID_B, 0).blocks + [BLOCK] == [BLOCK];
    assert AddBlock(NewBuilder(CFG, ID_B, 0), BLOCK, Added(None)) == (BUILT_B, AddOk);
    assert AddLoop(BUILT_B, [BLOCK][1..], []) == LoopOut(BUILT_B, 0, true);
    EmitTwo(BUILT_B);
  }

  lemma StepSendB()
    ensures Apply(AfterSendA(), SEND_B) == Some(AfterSendB())
  {
    hide OutputAll, GetReadyChannel, BuilderOf;
    var s := AfterSendA();
    FillB();
    assert FirstWithTxData(s.chans, [0][1..]) == None;
    SendNew(s, 60, ENV_B, 1);
    var (s1, r) := GetReadyChannel(s, 60, ENV_B);
    assert s.queue + [1] == [0, 1];
    assert s1.chans[1].builder.frames[0..1] == [FRAMES_B[0]];
    assert IdOf([FRAMES_B[0]]) == TX_B0;
    assert ManagerNextTx(s1, 1).0.chans == AfterSendB().chans;
    assert ManagerNextTx(s1, 1).0.txs == AfterSendB().txs;
    assert DaSum(s.blocks[0..1]) == 70;
  }

  lemma StepFailA()
    ensures CanFail(AfterSendB().chans[0], TX_A)
    ensures Apply(AfterSendB(), FAIL_A) == Some(AfterFailA())
  {
    var s := AfterSendB();
    assert SENT_A.pending - {TX_A} == map[];
    assert TxFailed(SENT_A, TX_A) == UNSENT_A;
    assert s.txs - {TX_A} == AfterFailA().txs;
    assert s.chans[0 := UNSENT_A] == AfterFailA().chans;
  }

  lemma ReadyA()
    ensures GetReadyChannel(AfterFailA(), 62, ENV_C) == (AfterFailA(), Ready(0))
  {
    hide FillCurrent;
  }

  /** Both channels are dropped. The cursor does not move, since the channel invalidated has no block. */
  lemma InvalidateA()
    ensures Invalidate(AfterFailA(), 0) == Some(AfterSwitch().(cfg := CFG))
  {
    var s := AfterFailA();
    assert s.queue[..0] == [] && s.queue[0..] == s.queue && 1 in s.queue;
    assert (map t | t in s.txs && s.txs[t] !in s.queue[0..] :: s.txs[t]) == map[];
    assert s.blocks[1..1] == [];
  }

  lemma StepSwitch()
    ensures Apply(AfterFailA(), SWITCH) == Some(AfterSwitch())
  {
    hide FillCurrent, Invalidate;
    ReadyA();
    InvalidateA();
    assert GetReadyChannel(AfterSwitch(), 62, ENV_C) == (AfterSwitch(), NoData);
  }

  // ---------------------------------------------------------------- reachability

  /** Looking for data does not change the configuration, so nothing is switched by these calls. */
  lemma NoSwitch<C>(s: Mgr<C>, op: Op<C>)
    requires s.WellFormed() && op.OpTxData? && op.cfg.useBlobs == s.cfg.useBlobs
    ensures !Switches(s, op)
  {
    hide AddLoop, OutputFrames, FirstWithTxData;
  }

  lemma AllowedSend(s: Mgr<nat>, op: Op<nat>)
    requires s.WellFormed() && op.OpTxData? && op.cfg == CFG && s.cfg == CFG && EnvOk(s, op.env)
    ensures Allowed(s, op)
  {
    hide Switches, EnvOk, SafeToInvalidate, GetReadyChannel;
    NoSwitch(s, op);
  }

  lemma AddIsReachable()
    ensures Reaches(CFG, [ADD], AfterAdd())
  {
    hide Reaches, Apply;
    StepAdd();
    ReachesStart<nat>(CFG);
    ReachesOn(CFG, [], NewManager<nat>(CFG), ADD, AfterAdd());
    assert [] + [ADD] == [ADD];
  }

  lemma SendAIsReachable()
    ensures Reaches(CFG, [ADD, SEND_A], AfterSendA())
  {
    hide Reaches, Apply, Allowed;
    AddIsReachable();
    StepSendA();
    AllowedSend(AfterAdd(), SEND_A);
    ReachesOn(CFG, [ADD], AfterAdd(), SEND_A, AfterSendA());
    assert [ADD] + [SEND_A] == [ADD, SEND_A];
  }

  lemma SendBIsReachable()
    ensures Reaches(CFG, [ADD, SEND_A, SEND_B], AfterSendB())
  {
    hide Reaches, Apply, Allowed;
    SendAIsReachable();
    StepSendB();
    AllowedSend(AfterSendA(), SEND_B);
    ReachesOn(CFG, [ADD, SEND_A], AfterSendA(), SEND_B, AfterSendB());
    assert [ADD, SEND_A] + [SEND_B] == [ADD, SEND_A, SEND_B];
  }

  /** Every step up to here is allowed, so the state is one a fresh manager reaches. */
  lemma LossIsReachable()
    ensures Reaches(CFG, [ADD, SEND_A, SEND_B, FAIL_A], AfterFailA())
  {
    hide Reaches, Apply;
    SendBIsReachable();
    StepFailA();
    ReachesOn(CFG, [ADD, SEND_A, SEND_B], AfterSendB(), FAIL_A, AfterFailA());
    assert [ADD, SEND_A, SEND_B] + [FAIL_A] == [ADD, SEND_A, SEND_B, FAIL_A];
  }

  lemma SwitchFactoryOk()
    ensures AfterFailA().WellFormed() && FactoryOk(AfterFailA(), SWITCH)
  {
    hide GetReadyChannel, Invalidate;
    ReadyA();
    InvalidateA();
  }

  /** From there, asking for the next transaction under the other DA type leaves `BLOCK` below the cursor and in no channel. */
  lemma BlockLost()
    ensures AfterFailA().WellFormed() && HeldSomewhere(AfterFailA(), BLOCK)
    ensures SWITCH.cfg.Check() && FactoryOk(AfterFailA(), SWITCH)
    ensures var r := Apply(AfterFailA(), SWITCH);
      && r.Some? && r.value.WellFormed()
      && r.value.blocks == [BLOCK] && r.value.cursor == 1 && !HeldSomewhere(r.value, BLOCK)
  {
    hide FactoryOk, Apply;
    assert Holds(AfterFailA(), 1, 0, BLOCK);
    StepSwitch();
    SwitchFactoryOk();
  }
}
