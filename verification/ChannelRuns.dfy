/**
 Any run of one channel: which frames are covered by transactions, and when the
 channel stops taking blocks.
 */
module ChannelRuns {
  import opened BatcherTypes
  import opened ChannelBuilders
  import opened Channels

  datatype ChanOp =
    | DoAdd(block: Block, answer: AddResult)
    | DoCheck(l1: nat)
    | DoOutput(script: FrameScript)
    | DoNext
    | DoFailed(id: TxId)
    | DoConfirmed(id: TxId, l1Inclusion: nat)

  function Do(c: Chan, op: ChanOp): Chan
    requires op.DoFailed? ==> CanFail(c, op.id)
  {
    match op
    case DoAdd(block, answer) => c.(builder := AddBlock(c.builder, block, answer).0)
    case DoCheck(l1) => c.(builder := CheckTimeout(c.builder, l1))
    case DoOutput(script) => c.(builder := OutputFrames(c.builder, script).0)
    case DoNext => if c.HasTxData() then NextTxData(c).0 else c
    case DoFailed(id) => TxFailed(c, id)
    case DoConfirmed(id, l1) => TxConfirmed(c, id, l1).0
  }

  /** The compression pipeline emits at most 2^16 frames per channel. */
  ghost predicate FramesFit(c: Chan, op: ChanOp) {
    op.DoOutput? ==> |c.builder.frames| + |op.script.frames| <= MAX_FRAMES
  }

  lemma DoKeeps(c: Chan, op: ChanOp)
    requires ChanInv(c) && FramesFit(c, op)
    ensures op.DoFailed? ==> CanFail(c, op.id)
    ensures ChanInv(Do(c, op))
  {
    hide ChanInv, BuilderInv, UpdateTimeout, WindowConstraint, CanFail, OutputAll;
    match op
    case DoAdd(block, answer) =>
      InvHasBuilder(c);
      AddBlockFrames(c.builder, block, answer);
      AddBlockKeeps(c.builder, block, answer);
      BuilderChangeKeeps(c, AddBlock(c.builder, block, answer).0);
    case DoCheck(l1) =>
      InvHasBuilder(c);
      CheckKeeps(c.builder, l1);
      BuilderChangeKeeps(c, CheckTimeout(c.builder, l1));
    case DoOutput(script) =>
      InvHasBuilder(c);
      OutputFramesKeeps(c.builder, script);
      BuilderChangeKeeps(c, OutputFrames(c.builder, script).0);
    case DoNext =>
      if c.HasTxData() {
        NextTxDataKeeps(c);
      }
    case DoFailed(id) =>
      PendingCanFail(c, id);
      TxFailedKeeps(c, id);
    case DoConfirmed(id, l1) =>
      TxConfirmedKeeps(c, id, l1);
  }

  lemma CheckKeeps(b: Builder, l1: nat)
    requires BuilderInv(b)
    ensures BuilderInv(CheckTimeout(b, l1))
  {
  }

  /** Adding a block concerns neither the frames nor the cursor. */
  lemma AddBlockFrames(b: Builder, block: Block, answer: AddResult)
    ensures var b' := AddBlock(b, block, answer).0;
      b'.frames == b.frames && b'.frameCursor == b.frameCursor && b'.id == b.id
  {
  }

  /**
   Emitting frames: a full channel is closed once and refuses a second time; otherwise the frames are appended in
   order, and the channel is full in addition exactly when its frame numbers are used up.
   */
  lemma OutputFramesExact(b: Builder, script: FrameScript)
    requires BuilderInv(b) && |b.frames| + |script.frames| <= MAX_FRAMES
    ensures var (b', ok) := OutputFrames(b, script);
      && BuilderInv(b')
      && (b.IsFull() && b.closed ==> b' == b && !ok)
      && (!(b.IsFull() && b.closed) ==>
            && ok == !script.fails
            && OnlyFramesAppended(b.(closed := b.closed || b.IsFull()), b', script.frames))
  {
    hide BuilderInv;
    ClosedKeeps(b);
    OutputAllAppends(b.(closed := b.closed || b.IsFull()), script.frames);
  }

  /** In particular blocks, deadline and cursor stay, and a full channel stays full. */
  lemma OutputFramesKeeps(b: Builder, script: FrameScript)
    requires BuilderInv(b) && |b.frames| + |script.frames| <= MAX_FRAMES
    ensures var b' := OutputFrames(b, script).0;
      && BuilderInv(b')
      && b'.id == b.id && b'.frameCursor == b.frameCursor && b'.blocks == b.blocks
      && b'.timeout == b.timeout && b'.timeoutReason == b.timeoutReason
      && |b.frames| <= |b'.frames| && b'.frames[..|b.frames|] == b.frames
      && (b.IsFull() ==> b'.IsFull())
  {
    hide BuilderInv, OutputFrames;
    OutputFramesExact(b, script);
  }

  lemma InvHasBuilder(c: Chan)
    requires ChanInv(c)
    ensures BuilderInv(c.builder)
  {
  }

  // ---------------------------------------------------------------- deadlines

  /** An L1 block number by which the channel must be closed, and why. */
  datatype Limit = Limit(at: nat, reason: Reason)

  /** The limits an operation sets for the channel. */
  ghost function Constraints(c: Chan, op: ChanOp): seq<Limit> {
    match op
    case DoAdd(block, answer) =>
      if !c.IsFull() && answer.Added? then [Limit(WindowConstraint(c.builder.cfg, block.l1Origin), SeqWindowClose)] else []
    case DoConfirmed(id, l1) =>
      if id in c.pending then [Limit(InclusionConstraint(c.builder.cfg, l1), ChannelTimeoutClose)] else []
    case _ => []
  }

  ghost function InitialConstraints(cfg: Config, l1Origin: nat): seq<Limit> {
    if cfg.maxChannelDuration == 0 then [] else [Limit(DurationConstraint(cfg, l1Origin), MaxDurationReached)]
  }

  /** Where nothing wraps, each limit leaves its safety margin: the duration counts from the given block with none. */
  lemma LimitsLeaveMargin(cfg: Config, l1: nat)
    requires l1 + cfg.maxChannelDuration + cfg.seqWindowSize + cfg.channelTimeout < UINT64_RANGE
    ensures DurationConstraint(cfg, l1) == l1 + cfg.maxChannelDuration
    ensures cfg.subSafetyMargin <= l1 + cfg.seqWindowSize ==> WindowConstraint(cfg, l1) + cfg.subSafetyMargin == l1 + cfg.seqWindowSize
    ensures cfg.Check() ==> InclusionConstraint(cfg, l1) + cfg.subSafetyMargin == l1 + cfg.channelTimeout
  {
  }

  /** A run from `c` to `c'`, and the constraints met on the way. */
  ghost predicate ChanLeads(c: Chan, ops: seq<ChanOp>, c': Chan, seen: seq<Limit>)
    requires ChanInv(c)
    decreases |ops|
  {
    if ops == [] then c' == c && seen == []
    else
      && FramesFit(c, ops[0])
      && Constraints(c, ops[0]) <= seen
      && (DoKeeps(c, ops[0]); ChanLeads(Do(c, ops[0]), ops[1..], c', seen[|Constraints(c, ops[0])|..]))
  }

  /** A run of a new channel. */
  ghost predicate ChanReaches(cfg: Config, id: ChannelId, l1Origin: nat, ops: seq<ChanOp>, c: Chan, seen: seq<Limit>) {
    cfg.Check() && (NewChanInv(cfg, id, l1Origin); ChanLeads(NewChan(cfg, id, l1Origin), ops, c, seen))
  }

  /** What repeatedly taking the earlier limit settles on, 0 meaning none yet. */
  function Settle(t: Limit, cs: seq<Limit>): Limit
    decreases |cs|
  {
    if cs == [] then t else Settle(if t.at == 0 || cs[0].at < t.at then cs[0] else t, cs[1..])
  }

  /** One of the limits, and none is earlier. */
  ghost predicate IsLeast(t: Limit, cs: seq<Limit>) {
    t in cs && forall i :: 0 <= i < |cs| ==> t.at <= cs[i].at
  }

  ghost predicate HasZero(cs: seq<Limit>) {
    exists i :: 0 <= i < |cs| && cs[i].at == 0
  }

  ghost function DeadlineOf(b: Builder): Limit {
    Limit(b.timeout, b.timeoutReason)
  }

  lemma {:induction false} ChanRunKeeps(c: Chan, ops: seq<ChanOp>, c': Chan, seen: seq<Limit>)
    requires ChanInv(c) && ChanLeads(c, ops, c', seen)
    ensures ChanInv(c')
    ensures DeadlineOf(c'.builder) == Settle(DeadlineOf(c.builder), seen)
    ensures c.IsFull() ==> c'.IsFull() && c'.builder.blocks == c.builder.blocks
    decreases |ops|
  {
    hide ChanInv;
    if ops != [] {
      DoKeeps(c, ops[0]);
      DoEffect(c, ops[0]);
      var first := Constraints(c, ops[0]);
      ChanRunKeeps(Do(c, ops[0]), ops[1..], c', seen[|first|..]);
      assert seen == first + seen[|first|..];
    }
  }

  lemma SettleOne(t: Limit, l: Limit)
    ensures Settle(t, [l]) == if t.at == 0 || l.at < t.at then l else t
  {
    assert [l][1..] == [];
  }

  lemma AddDeadline(b: Builder, block: Block, answer: AddResult)
    ensures DeadlineOf(AddBlock(b, block, answer).0) ==
      Settle(DeadlineOf(b), if !b.IsFull() && answer.Added? then [Limit(WindowConstraint(b.cfg, block.l1Origin), SeqWindowClose)] else [])
    ensures b.IsFull() ==> AddBlock(b, block, answer).0 == b
  {
    hide Settle, WindowConstraint;
    SettleNone(DeadlineOf(b));
    SettleOne(DeadlineOf(b), Limit(WindowConstraint(b.cfg, block.l1Origin), SeqWindowClose));
  }

  lemma SettleNone(t: Limit)
    ensures Settle(t, []) == t
  {
  }

  lemma ConfirmDeadline(c: Chan, id: TxId, l1: nat)
    ensures var c' := TxConfirmed(c, id, l1).0;
      && DeadlineOf(c'.builder) ==
           Settle(DeadlineOf(c.builder), if id in c.pending then [Limit(InclusionConstraint(c.builder.cfg, l1), ChannelTimeoutClose)] else [])
      && c'.builder.fullErr == c.builder.fullErr && c'.builder.blocks == c.builder.blocks
  {
    hide Settle, InclusionConstraint;
    SettleNone(DeadlineOf(c.builder));
    SettleOne(DeadlineOf(c.builder), Limit(InclusionConstraint(c.builder.cfg, l1), ChannelTimeoutClose));
  }

  /** One operation moves the deadline by its own constraint only, and never reopens a full channel. */
  lemma DoEffect(c: Chan, op: ChanOp)
    requires ChanInv(c) && FramesFit(c, op)
    ensures op.DoFailed? ==> CanFail(c, op.id)
    ensures DeadlineOf(Do(c, op).builder) == Settle(DeadlineOf(c.builder), Constraints(c, op))
    ensures c.IsFull() ==> Do(c, op).IsFull() && Do(c, op).builder.blocks == c.builder.blocks
  {
    hide ChanInv, BuilderInv, WindowConstraint, InclusionConstraint, OutputFrames, AddBlock, TxConfirmed;
    match op
    case DoAdd(block, answer) => AddDeadline(c.builder, block, answer);
    case DoOutput(script) =>
      InvHasBuilder(c);
      OutputFramesKeeps(c.builder, script);
    case DoFailed(id) => PendingCanFail(c, id);
    case DoConfirmed(id, l1) => ConfirmDeadline(c, id, l1);
    case _ =>
  }

  lemma ClosedKeeps(b: Builder)
    requires BuilderInv(b)
    ensures BuilderInv(b.(closed := b.closed || b.IsFull()))
  {
  }

  /** The limit settles on 0 exactly when the last one met is 0. */
  lemma {:induction false} SettleZero(t: Limit, cs: seq<Limit>)
    ensures Settle(t, cs).at == 0 <==> (if cs == [] then t else cs[|cs| - 1]).at == 0
    decreases |cs|
  {
    if cs != [] {
      SettleZero(if t.at == 0 || cs[0].at < t.at then cs[0] else t, cs[1..]);
    }
  }

  lemma {:induction false} SettlePositive(t: Limit, cs: seq<Limit>)
    requires 0 < t.at && !HasZero(cs)
    ensures Settle(t, cs) == t || Settle(t, cs) in cs
    ensures Settle(t, cs).at <= t.at && forall i :: 0 <= i < |cs| ==> Settle(t, cs).at <= cs[i].at
    decreases |cs|
  {
    if cs != [] {
      assert forall i :: 1 <= i < |cs| ==> cs[i] == cs[1..][i - 1];
      SettlePositive(if cs[0].at < t.at then cs[0] else t, cs[1..]);
    }
  }

  /**
   Taking the earlier limit each time yields the least limit exactly when no limit is 0, which the code reads as
   "no limit yet", except possibly the last one.
   */
  lemma SettleIsLeast(t: Limit, cs: seq<Limit>)
    requires cs != [] && t.at == 0
    ensures IsLeast(Settle(t, cs), cs) <==> (HasZero(cs) ==> cs[|cs| - 1].at == 0)
  {
    SettleZero(t, cs);
    SettleKnown(t, cs);
    if !HasZero(cs) {
      assert forall i :: 1 <= i < |cs| ==> cs[i] == cs[1..][i - 1];
      SettlePositive(cs[0], cs[1..]);
    }
  }

  /** What is settled on was met. */
  lemma {:induction false} SettleKnown(t: Limit, cs: seq<Limit>)
    ensures Settle(t, cs) in [t] + cs
    ensures cs != [] && t.at == 0 ==> Settle(t, cs) in cs
    decreases |cs|
  {
    if cs != [] {
      SettleKnown(if t.at == 0 || cs[0].at < t.at then cs[0] else t, cs[1..]);
    }
  }

  /** Where a new channel's run leads: the deadline, with its reason, is the least of all limits, when none is 0. */
  lemma DeadlineIsLeast(cfg: Config, id: ChannelId, l1Origin: nat, ops: seq<ChanOp>, c: Chan, seen: seq<Limit>)
    requires ChanReaches(cfg, id, l1Origin, ops, c, seen)
    ensures var limits := InitialConstraints(cfg, l1Origin) + seen;
      && (limits == [] ==> c.builder.timeout == 0)
      && (limits != [] ==> (IsLeast(DeadlineOf(c.builder), limits) <==> (HasZero(limits) ==> limits[|limits| - 1].at == 0)))
  {
    hide ChanInv, HasZero, IsLeast;
    NewChanInv(cfg, id, l1Origin);
    var first := InitialConstraints(cfg, l1Origin);
    var none := Limit(0, Unset);
    ChanRunKeeps(NewChan(cfg, id, l1Origin), ops, c, seen);
    assert DeadlineOf(c.builder) == Settle(none, first + seen) by {
      if first != [] {
        assert (first + seen)[1..] == seen;
      } else {
        assert first + seen == seen;
      }
    }
    if first + seen != [] {
      SettleIsLeast(none, first + seen);
    }
  }

  /** A channel that is not full yet is closed by an L1 head exactly when the head has reached one of its limits. */
  lemma ClosesExactly(cfg: Config, id: ChannelId, l1Origin: nat, ops: seq<ChanOp>, c: Chan, seen: seq<Limit>, l1Head: nat)
    requires ChanReaches(cfg, id, l1Origin, ops, c, seen) && !c.IsFull()
    requires !HasZero(InitialConstraints(cfg, l1Origin) + seen)
    ensures var limits := InitialConstraints(cfg, l1Origin) + seen;
      Do(c, DoCheck(l1Head)).IsFull() <==> exists i :: 0 <= i < |limits| && limits[i].at <= l1Head
    ensures Do(c, DoCheck(l1Head)).IsFull() ==> Do(c, DoCheck(l1Head)).builder.fullErr == Some(DeadlineOf(c.builder).reason)
  {
    hide ChanInv, ChanReaches;
    DeadlineIsLeast(cfg, id, l1Origin, ops, c, seen);
  }

  lemma ReachedInv(cfg: Config, id: ChannelId, l1Origin: nat, ops: seq<ChanOp>, c: Chan, seen: seq<Limit>)
    requires ChanReaches(cfg, id, l1Origin, ops, c, seen)
    ensures ChanInv(c)
  {
    hide ChanInv;
    NewChanInv(cfg, id, l1Origin);
    ChanRunKeeps(NewChan(cfg, id, l1Origin), ops, c, seen);
  }

  /**
   A limit of 0 is reachable and erases the others: after a first block whose sequencing window, less the safety margin,
   ends at 0, such as one with L1 origin 0 when the margin is the whole window, no L1 head closes the channel.
   */
  lemma DeadlineForgotten(cfg: Config, id: ChannelId, l1Origin: nat, block: Block, l1Head: nat)
    requires cfg.Check() && 0 < cfg.maxChannelDuration && WindowConstraint(cfg, block.l1Origin) == 0
    ensures var c := Do(NewChan(cfg, id, l1Origin), DoAdd(block, Added(None)));
      && ChanReaches(cfg, id, l1Origin, [DoAdd(block, Added(None))], c, [Limit(0, SeqWindowClose)])
      && InitialConstraints(cfg, l1Origin) == [Limit(DurationConstraint(cfg, l1Origin), MaxDurationReached)]
      && c.builder.timeout == 0 && !Do(c, DoCheck(l1Head)).IsFull()
  {
    hide ChanInv, WindowConstraint, DurationConstraint;
    NewChanInv(cfg, id, l1Origin);
    var op := DoAdd(block, Added(None));
    var c := Do(NewChan(cfg, id, l1Origin), op);
    var zero := Limit(0, SeqWindowClose);
    assert [op][1..] == [] && [zero][1..] == [];
    assert Constraints(NewChan(cfg, id, l1Origin), op) == [zero];
    DoKeeps(NewChan(cfg, id, l1Origin), op);
    assert ChanLeads(c, [], c, []);
  }

  /** A run of a new channel leads to `c`; checking it against an L1 head and running on leads to `c'`. */
  ghost predicate ClosedLeads(cfg: Config, id: ChannelId, l1Origin: nat, ops: seq<ChanOp>, c: Chan, seen: seq<Limit>,
                              l1Head: nat, later: seq<ChanOp>, c': Chan, seen': seq<Limit>) {
    ChanReaches(cfg, id, l1Origin, ops, c, seen) &&
    (ReachedInv(cfg, id, l1Origin, ops, c, seen);
     DoKeeps(c, DoCheck(l1Head));
     ChanLeads(Do(c, DoCheck(l1Head)), later, c', seen'))
  }

  /** Once the L1 head reaches any of the limits, the channel is full for good and takes no further block. */
  lemma LimitReachedStaysFull(cfg: Config, id: ChannelId, l1Origin: nat, ops: seq<ChanOp>, c: Chan, seen: seq<Limit>,
                              l1Head: nat, later: seq<ChanOp>, c': Chan, seen': seq<Limit>)
    requires !HasZero(InitialConstraints(cfg, l1Origin) + seen)
    requires exists limit :: limit in InitialConstraints(cfg, l1Origin) + seen && limit.at <= l1Head
    requires ClosedLeads(cfg, id, l1Origin, ops, c, seen, l1Head, later, c', seen')
    ensures c'.IsFull() && c'.builder.blocks == c.builder.blocks
  {
    hide ChanInv;
    DeadlineIsLeast(cfg, id, l1Origin, ops, c, seen);
    ReachedInv(cfg, id, l1Origin, ops, c, seen);
    DoKeeps(c, DoCheck(l1Head));
    ChanRunKeeps(Do(c, DoCheck(l1Head)), later, c', seen');
  }

  /** In any run of a new channel every frame below the cursor is in a transaction, and full submission means all are confirmed. */
  lemma FramesCovered(cfg: Config, id: ChannelId, l1Origin: nat, ops: seq<ChanOp>, c: Chan, seen: seq<Limit>, frame: nat)
    requires ChanReaches(cfg, id, l1Origin, ops, c, seen)
    ensures frame < c.builder.frameCursor ==> Covered(c, frame)
    ensures c.IsFullySubmitted() && frame < |c.builder.frames| ==> FrameConfirmed(c, frame)
  {
    ReachedInv(cfg, id, l1Origin, ops, c, seen);
    if c.IsFullySubmitted() && frame < |c.builder.frames| {
      FullySubmittedMeansConfirmed(c, frame);
    }
  }

  // ---------------------------------------------------------------- inclusions

  /** The L1 blocks that included transactions of the channel, in the order of their confirmations. */
  ghost function Included(c: Chan, ops: seq<ChanOp>, c': Chan, seen: seq<Limit>): seq<nat>
    requires ChanInv(c) && ChanLeads(c, ops, c', seen)
    decreases |ops|
  {
    if ops == [] then []
    else
      DoKeeps(c, ops[0]);
      (if ops[0].DoConfirmed? && ops[0].id in c.pending then [ops[0].l1Inclusion] else [])
      + Included(Do(c, ops[0]), ops[1..], c', seen[|Constraints(c, ops[0])|..])
  }

  ghost function LeastOf(t: nat, ls: seq<nat>): nat
    decreases |ls|
  {
    if ls == [] then t else LeastOf(Min(t, ls[0]), ls[1..])
  }

  ghost function GreatestOf(t: nat, ls: seq<nat>): nat
    decreases |ls|
  {
    if ls == [] then t else GreatestOf(Max(t, ls[0]), ls[1..])
  }

  lemma {:induction false} BoundsRun(c: Chan, ops: seq<ChanOp>, c': Chan, seen: seq<Limit>)
    requires ChanInv(c) && ChanLeads(c, ops, c', seen)
    ensures var ls := Included(c, ops, c', seen);
      && c'.minInclusion == LeastOf(c.minInclusion, ls) && c'.maxInclusion == GreatestOf(c.maxInclusion, ls)
      && c'.builder.cfg == c.builder.cfg
      && (c'.confirmed == map[] <==> c.confirmed == map[] && ls == [])
    decreases |ops|
  {
    hide ChanInv;
    if ops != [] {
      DoKeeps(c, ops[0]);
      BoundsStep(c, ops[0]);
      var rest := seen[|Constraints(c, ops[0])|..];
      BoundsRun(Do(c, ops[0]), ops[1..], c', rest);
      hide Do;
      var one := if ops[0].DoConfirmed? && ops[0].id in c.pending then [ops[0].l1Inclusion] else [];
      assert one != [] ==> (one + Included(Do(c, ops[0]), ops[1..], c', rest))[1..] == Included(Do(c, ops[0]), ops[1..], c', rest);
      assert one == [] ==> one + Included(Do(c, ops[0]), ops[1..], c', rest) == Included(Do(c, ops[0]), ops[1..], c', rest);
    }
  }

  lemma BoundsStep(c: Chan, op: ChanOp)
    requires ChanInv(c) && FramesFit(c, op)
    ensures op.DoFailed? ==> CanFail(c, op.id)
    ensures var c', hit := Do(c, op), op.DoConfirmed? && op.id in c.pending;
      && c'.builder.cfg == c.builder.cfg
      && c'.minInclusion == (if hit then Min(c.minInclusion, op.l1Inclusion) else c.minInclusion)
      && c'.maxInclusion == (if hit then Max(c.maxInclusion, op.l1Inclusion) else c.maxInclusion)
      && (c'.confirmed == map[] <==> c.confirmed == map[] && !hit)
  {
    hide ChanInv, BuilderInv, WindowConstraint, InclusionConstraint, OutputFrames;
    if op.DoFailed? {
      PendingCanFail(c, op.id);
    } else if op.DoOutput? {
      InvHasBuilder(c);
      OutputFramesExact(c.builder, op.script);
    } else if op.DoConfirmed? && op.id in c.pending {
      assert op.id in Do(c, op).confirmed;
    }
  }

  lemma {:induction false} LeastBound(t: nat, ls: seq<nat>)
    ensures LeastOf(t, ls) <= t && forall i :: 0 <= i < |ls| ==> LeastOf(t, ls) <= ls[i]
    ensures LeastOf(t, ls) == t || LeastOf(t, ls) in ls
    decreases |ls|
  {
    if ls != [] {
      assert forall i :: 1 <= i < |ls| ==> ls[i] == ls[1..][i - 1];
      LeastBound(Min(t, ls[0]), ls[1..]);
    }
  }

  lemma {:induction false} GreatestBound(t: nat, ls: seq<nat>)
    ensures t <= GreatestOf(t, ls) && forall i :: 0 <= i < |ls| ==> ls[i] <= GreatestOf(t, ls)
    ensures GreatestOf(t, ls) == t || GreatestOf(t, ls) in ls
    decreases |ls|
  {
    if ls != [] {
      assert forall i :: 1 <= i < |ls| ==> ls[i] == ls[1..][i - 1];
      GreatestBound(Max(t, ls[0]), ls[1..]);
    }
  }

  /** Two inclusions at least a channel timeout apart. */
  ghost predicate FarApart(ls: seq<nat>, timeout: nat) {
    exists i, j :: 0 <= i < |ls| && 0 <= j < |ls| && ls[i] + timeout <= ls[j]
  }

  /** A channel counts as timed out exactly when two of its transactions were included a channel timeout apart. */
  lemma TimedOutExact(cfg: Config, id: ChannelId, l1Origin: nat, ops: seq<ChanOp>, c: Chan, seen: seq<Limit>)
    requires ChanReaches(cfg, id, l1Origin, ops, c, seen)
    requires forall i :: 0 <= i < |InclusionsOf(cfg, id, l1Origin, ops, c, seen)| ==>
      InclusionsOf(cfg, id, l1Origin, ops, c, seen)[i] < UINT64_RANGE
    ensures c.IsTimedOut() <==> FarApart(InclusionsOf(cfg, id, l1Origin, ops, c, seen), cfg.channelTimeout)
  {
    hide ChanInv, Included, Wrap64, FarApart, ChanLeads;
    NewChanInv(cfg, id, l1Origin);
    var ls := InclusionsOf(cfg, id, l1Origin, ops, c, seen);
    BoundsRun(NewChan(cfg, id, l1Origin), ops, c, seen);
    LeastBound(UINT64_RANGE - 1, ls);
    GreatestBound(0, ls);
    NonEmpty(c.confirmed);
    if ls != [] {
      assert c.minInclusion <= ls[0] <= c.maxInclusion;
      SpreadExact(ls, c.minInclusion, c.maxInclusion, cfg.channelTimeout);
    } else {
      NoneApart(ls, cfg.channelTimeout);
    }
  }

  lemma NoneApart(ls: seq<nat>, timeout: nat)
    requires ls == []
    ensures !FarApart(ls, timeout)
  {
  }

  /** The subtraction does not wrap, and the spread of the extremes is the widest. */
  lemma SpreadExact(ls: seq<nat>, least: nat, greatest: nat, timeout: nat)
    requires least in ls && greatest in ls && greatest < UINT64_RANGE
    requires forall i :: 0 <= i < |ls| ==> least <= ls[i] <= greatest
    ensures timeout <= Wrap64(greatest - least) <==> FarApart(ls, timeout)
  {
    var i, j :| 0 <= i < |ls| && ls[i] == least && 0 <= j < |ls| && ls[j] == greatest;
    assert Wrap64(greatest - least) == greatest - least;
  }

  lemma NonEmpty<K, V>(m: map<K, V>)
    ensures |m| > 0 <==> m != map[]
  {
    if m != map[] {
      var k :| k in m;
    }
  }

  ghost function InclusionsOf(cfg: Config, id: ChannelId, l1Origin: nat, ops: seq<ChanOp>, c: Chan, seen: seq<Limit>): seq<nat>
    requires ChanReaches(cfg, id, l1Origin, ops, c, seen)
  {
    NewChanInv(cfg, id, l1Origin);
    Included(NewChan(cfg, id, l1Origin), ops, c, seen)
  }
}
