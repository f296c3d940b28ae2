/**
 Two more runs in which the batcher breaks a promise: a confirmation that panics
 because its channel was pruned, and a byte counter left too high by pruning.
 */
module ManagerPanic {
  import opened BatcherTypes
  import opened ChannelBuilders
  import opened Channels
  import opened ManagerState
  import opened ManagerInvariant
  import opened ManagerRuns
  import opened ManagerSync
  import opened SyncActions
  import opened ManagerLoss

  const TX_B1: TxId := [FrameId(ID_B, 1)]
  const CONFIRM_B0: Op<nat> := OpConfirmed(TX_B0, 61)

  /** The sequencer reports `BLOCK` as safe. */
  const SAFE := L2Ref(1, 7, 50)
  const STATUS := SyncStatus(L1Ref(5, 100, 4, 0), L1Ref(5, 100, 4, 0), SAFE, SAFE, SAFE)
  const SYNC: Op<nat> := OpSync(STATUS, EMPTY_L1, false)

  const SENT_BOTH := SENT_B.(builder := SENT_B.builder.(frameCursor := 2),
                             pending := map[TX_B0 := TxData([FRAMES_B[0]], false), TX_B1 := TxData([FRAMES_B[1]], false)])
  const HALF_B := Chan(SENT_BOTH.builder.(timeout := 101, timeoutReason := ChannelTimeoutClose),
                       map[TX_B1 := TxData([FRAMES_B[1]], false)], map[TX_B0 := 61], 61, 61)

  function AfterSendBoth(): Mgr<nat> {
    AfterSendB().(chans := map[0 := SENT_A, 1 := SENT_BOTH], txs := map[TX_A := 0, TX_B0 := 1, TX_B1 := 1])
  }

  function AfterConfirm(): Mgr<nat> {
    AfterSendB().(chans := map[0 := SENT_A, 1 := HALF_B], txs := map[TX_A := 0, TX_B1 := 1])
  }

  function AfterPrune(): Mgr<nat> {
    AfterConfirm().(blocks := [], cursor := 0, current := None, queue := [])
  }

  lemma ReadyB()
    ensures GetReadyChannel(AfterSendB(), 60, ENV_C) == (AfterSendB(), Ready(1))
  {
    hide FillCurrent;
    var s := AfterSendB();
    assert s.queue[1..] == [1];
    assert FirstWithTxData(s.chans, [1]) == Some(1);
  }

  lemma StepSendBoth()
    ensures Apply(AfterSendB(), OpTxData(60, CFG, ENV_C, ENV_C)) == Some(AfterSendBoth())
  {
    hide GetReadyChannel;
    ReadyB();
    var s := AfterSendB();
    assert SENT_B.builder.frames[1..2] == [FRAMES_B[1]];
    assert IdOf([FRAMES_B[1]]) == TX_B1;
    assert NextTxData(SENT_B) == (SENT_BOTH, TxData([FRAMES_B[1]], false));
    assert s.chans[1 := SENT_BOTH] == AfterSendBoth().chans;
    assert s.txs[TX_B1 := 1] == AfterSendBoth().txs;
  }

  lemma ConfirmB0()
    ensures TxConfirmed(SENT_BOTH, TX_B0, 61) == (HALF_B, false)
  {
    assert TX_B0[0] != TX_B1[0];
    assert SENT_BOTH.pending - {TX_B0} == HALF_B.pending;
  }

  lemma StepConfirm()
    ensures AfterSendBoth().WellFormed() && Allowed(AfterSendBoth(), CONFIRM_B0)
    ensures Apply(AfterSendBoth(), CONFIRM_B0) == Some(AfterConfirm())
  {
    hide TxConfirmed, Invalidate;
    ConfirmB0();
    var s := AfterSendBoth();
    assert TX_B0[0] != TX_B1[0] && TX_B0[0] != TX_A[0];
    assert s.txs - {TX_B0} == AfterConfirm().txs;
    assert s.chans[1 := HALF_B] == AfterConfirm().chans;
  }

  lemma ActionsAre(s: Mgr<nat>, m: nat)
    requires s.WellFormed() && s.blocks == [BLOCK] && m == |s.queue|
    requires forall i :: 0 <= i < |s.queue| ==>
      s.chans[s.queue[i]].builder.latestL2 <= 7 && !Stalled(StatusOf(s.chans[s.queue[i]]), 100, 7)
    ensures ActionsFor(s, STATUS, EMPTY_L1, false) == (Actions(None, 1, m, None), false)
  {
    var st := Statuses(s);
    assert forall i :: 0 <= i < |st| ==> st[i] == StatusOf(s.chans[s.queue[i]]);
  }

  lemma StepPrune()
    ensures Apply(AfterConfirm(), SYNC) == Some(AfterPrune())
  {
    hide ActionsFor;
    var s := AfterConfirm();
    assert TX_A in SENT_A.pending && !SENT_A.IsFullySubmitted();
    ActionsAre(s, 2);
    assert s.blocks[1..] == [] && s.queue[2..] == [] && s.queue[..2] == s.queue;
    assert s.current.value == s.queue[1];
  }

  /** A fresh manager gets here by allowed steps: everything is pruned, one transaction is still on its way. */
  lemma PanicIsReachable()
    ensures Reaches(CFG, [ADD, SEND_A, SEND_B, OpTxData(60, CFG, ENV_C, ENV_C), CONFIRM_B0, SYNC], AfterPrune())
  {
    hide Reaches, Apply, Allowed;
    var send := OpTxData(60, CFG, ENV_C, ENV_C);
    SendBIsReachable();
    StepSendBoth();
    AllowedSend(AfterSendB(), send);
    ReachesOn(CFG, [ADD, SEND_A, SEND_B], AfterSendB(), send, AfterSendBoth());
    var ops := [ADD, SEND_A, SEND_B] + [send];
    StepConfirm();
    ReachesOn(CFG, ops, AfterSendBoth(), CONFIRM_B0, AfterConfirm());
    StepPrune();
    AllowedSync(AfterConfirm());
    ReachesOn(CFG, ops + [CONFIRM_B0], AfterConfirm(), SYNC, AfterPrune());
    assert ops + [CONFIRM_B0] + [SYNC] == [ADD, SEND_A, SEND_B, send, CONFIRM_B0, SYNC];
  }

  lemma AllowedSync(s: Mgr<nat>)
    requires s.WellFormed()
    ensures Allowed(s, SYNC)
  {
  }

  /** Its confirmation, fifty L1 blocks after the first, times the pruned channel out, and the manager panics. */
  lemma ConfirmationPanics()
    ensures AfterPrune().WellFormed() && Apply(AfterPrune(), OpConfirmed(TX_B1, 111)).None?
  {
    hide DaSum;
    assert TX_B0 in HALF_B.confirmed[TX_B1 := 111];
  }

  /** `BLOCK` turns safe before it was put in a channel. */
  lemma ExcessIsReachable()
    ensures Reaches(CFG, [ADD, SYNC], AfterAdd().(blocks := []))
  {
    hide Reaches, Apply, Allowed;
    var s := AfterAdd();
    AddIsReachable();
    AllowedSync(s);
    StepExcess();
    ReachesOn(CFG, [ADD], s, SYNC, s.(blocks := []));
    assert [ADD] + [SYNC] == [ADD, SYNC];
  }

  lemma StepExcess()
    ensures Apply(AfterAdd(), SYNC) == Some(AfterAdd().(blocks := []))
  {
    hide ActionsFor;
    var s := AfterAdd();
    ActionsAre(s, 0);
    assert s.blocks[1..] == [] && s.queue[0..] == s.queue;
  }

  /** No block is queued, and seventy bytes are counted as pending. */
  lemma ExcessBytes()
    ensures var s := AfterAdd().(blocks := []);
      s.WellFormed() && s.blocks == [] && s.pendingDaBytes == Excess(s) == 70
  {
    assert AfterAdd().(blocks := []).blocks[0..] == [];
  }
}
