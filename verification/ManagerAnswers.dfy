/**
 What the channel manager answers: which channel is ready, which frames the next
 transaction carries, and when there is nothing to send or building failed.
 */
module ManagerAnswers {
  import opened BatcherTypes
  import opened ChannelBuilders
  import opened Channels
  import opened ManagerState
  import opened ManagerInvariant
  import opened ManagerInvalidate
  import opened ManagerBuild
  import opened ManagerRuns
  import ChannelRuns

  // ---------------------------------------------------------------- channels with something to send

  /** Frames are left, and they are a whole transaction's, or the channel sends them one by one, or no more will come. */
  ghost predicate Sendable(c: Chan) {
    var left := |c.builder.frames| - c.builder.frameCursor;
    0 < left && (c.builder.fullErr.Some? || !c.builder.cfg.useBlobs || c.builder.cfg.targetNumFrames <= left)
  }

  lemma SendableExact(c: Chan)
    requires ChanInv(c)
    ensures c.HasTxData() <==> Sendable(c)
  {
    hide PendingNamed, ConfirmedNamed, CursorCovered;
  }

  /** The channel has something to send and no older queued channel has. */
  ghost predicate OldestReady<C>(s: Mgr<C>, c: C)
    requires s.WellFormed()
  {
    exists i :: 0 <= i < |s.queue| && s.queue[i] == c && Sendable(s.chans[c])
                && forall j :: 0 <= j < i ==> !Sendable(s.chans[s.queue[j]])
  }

  ghost predicate NoneSendable<C>(s: Mgr<C>)
    requires s.WellFormed()
  {
    forall c :: c in s.queue ==> !Sendable(s.chans[c])
  }

  lemma {:induction false} FirstIsOldest<C>(chans: map<C, Chan>, queue: seq<C>) returns (i: nat)
    requires (forall c :: c in queue ==> c in chans) && FirstWithTxData(chans, queue).Some?
    ensures i < |queue| && FirstWithTxData(chans, queue) == Some(queue[i])
    ensures forall j :: 0 <= j < i ==> !chans[queue[j]].HasTxData()
  {
    if chans[queue[0]].HasTxData() {
      i := 0;
    } else {
      var k := FirstIsOldest(chans, queue[1..]);
      i := k + 1;
      assert forall j :: 1 <= j < i ==> queue[j] == queue[1..][j - 1];
    }
  }

  lemma FirstReady<C>(s: Mgr<C>)
    requires Shape(s)
    ensures var first := FirstWithTxData(s.chans, s.queue);
      (first.Some? ==> OldestReady(s, first.value)) && (first.None? ==> NoneSendable(s))
  {
    hide ChanInv, Distinct, Sendable, FirstWithTxData;
    forall c | c in s.queue
      ensures s.chans[c].HasTxData() <==> Sendable(s.chans[c])
    {
      SendableExact(s.chans[c]);
    }
    if FirstWithTxData(s.chans, s.queue).Some? {
      var i := FirstIsOldest(s.chans, s.queue);
    }
  }

  // ---------------------------------------------------------------- filling a channel

  function AnswerAt(answers: seq<AddResult>, i: nat): AddResult {
    if i < |answers| then answers[i] else Broken
  }

  /** Block `n` is the first that the pipeline does not simply take. */
  ghost predicate StopsAt(answers: seq<AddResult>, blocks: nat, n: nat) {
    && n <= blocks
    && (forall i :: 0 <= i < n ==> AnswerAt(answers, i) == Added(None))
    && (n < blocks ==> AnswerAt(answers, n) != Added(None))
  }

  lemma {:induction false} StopExists(answers: seq<AddResult>, blocks: nat) returns (n: nat)
    ensures StopsAt(answers, blocks, n)
    decreases blocks
  {
    if blocks == 0 {
      n := 0;
    } else {
      n := StopExists(answers, blocks - 1);
      if n == blocks - 1 && AnswerAt(answers, n) == Added(None) {
        n := blocks;
      }
    }
  }

  /**
   The loop adds all blocks up to the first one that is not simply taken, and that one too if it is taken as the last;
   the channel is full if the pipeline said so, and the loop fails exactly when that block breaks the pipeline.
   */
  lemma {:induction false} AddLoopExact(b: Builder, todo: seq<Block>, answers: seq<AddResult>, n: nat)
    requires !b.IsFull() && StopsAt(answers, |todo|, n)
    ensures var out, last := AddLoop(b, todo, answers), AnswerAt(answers, n);
      && out.ok == !(n < |todo| && last.Broken?)
      && out.added == n + (if n < |todo| && last.Added? then 1 else 0)
      && out.builder.fullErr == (if n == |todo| || last.Broken? then None else if last.Added? then last.nowFull else Some(last.reason))
    decreases |todo|
  {
    if todo != [] {
      var b1 := AddBlock(b, todo[0], AnswerAt(answers, 0)).0;
      var rest := if answers == [] then [] else answers[1..];
      assert forall i: nat :: AnswerAt(rest, i) == AnswerAt(answers, i + 1);
      if 0 < n {
        assert AnswerAt(answers, 0) == Added(None);
        assert !b1.IsFull();
        assert StopsAt(rest, |todo| - 1, n - 1);
        AddLoopExact(b1, todo[1..], rest, n - 1);
      }
    }
  }

  /** Some block breaks the pipeline, all before it being simply taken. */
  ghost predicate PipelineBreaks(answers: seq<AddResult>, blocks: nat) {
    exists n: nat :: n < blocks && StopsAt(answers, blocks, n) && AnswerAt(answers, n).Broken?
  }

  lemma AddLoopBreaks(b: Builder, todo: seq<Block>, answers: seq<AddResult>)
    requires !b.IsFull()
    ensures AddLoop(b, todo, answers).ok <==> !PipelineBreaks(answers, |todo|)
  {
    hide StopsAt, AddLoop;
    var n := StopExists(answers, |todo|);
    AddLoopExact(b, todo, answers, n);
    if PipelineBreaks(answers, |todo|) {
      var m: nat :| m < |todo| && StopsAt(answers, |todo|, m) && AnswerAt(answers, m).Broken?;
      AddLoopExact(b, todo, answers, m);
    }
  }

  lemma {:induction false} AddLoopSettings(b: Builder, todo: seq<Block>, answers: seq<AddResult>)
    ensures var b' := AddLoop(b, todo, answers).builder;
      b'.cfg == b.cfg && b'.id == b.id && b'.frameCursor == b.frameCursor && b'.frames == b.frames && b'.closed == b.closed
    decreases |todo|
  {
    hide WindowConstraint;
    if todo != [] {
      var b1 := AddBlock(b, todo[0], if answers == [] then Broken else answers[0]).0;
      AddLoopSettings(b1, todo[1..], if answers == [] then [] else answers[1..]);
    }
  }

  /** What filling a channel with space comes to: whether it fails, whether it is ready, and that a reached deadline closes it. */
  lemma FillExact<C>(s: Mgr<C>, l1Head: nat, answers: seq<AddResult>, script: FrameScript)
    requires Shape(s) && HasSpace(s) && |CurrentBuilder(s).frames| + |script.frames| <= MAX_FRAMES
    ensures var (s', r) := FillCurrent(s, l1Head, answers, script);
      var c := s.current.value;
      var b' := s'.chans[c].builder;
      && (r.Failed? <==> PipelineBreaks(answers, |s.blocks| - s.cursor) || script.fails)
      && (r.Ready? ==> r.channel == c) && (r.Ready? || r.NoData? ==> (s'.chans[c].HasTxData() <==> r.Ready?))
      && (!r.Failed? ==> (b'.timeout != 0 && b'.timeout <= l1Head ==> b'.IsFull()))
      && s'.chans == s.chans[c := s.chans[c].(builder := b')]
      && s' == s.(chans := s'.chans, cursor := s'.cursor, pendingDaBytes := s'.pendingDaBytes)
      && b'.cfg == s.chans[c].builder.cfg && b'.frameCursor == s.chans[c].builder.frameCursor && b'.id == s.chans[c].builder.id
  {
    hide AddLoop, OutputFrames, PipelineBreaks, ChanInv, Distinct, DaSum, BuilderInv;
    var b := CurrentBuilder(s);
    var todo := s.blocks[s.cursor..];
    var out := AddLoop(b, todo, answers);
    AddLoopBreaks(b, todo, answers);
    AddLoopSettings(b, todo, answers);
    CurrentBuilderInv(s);
    AddLoopAppends(b, todo, answers);
    var b2 := CheckTimeout(out.builder, l1Head);
    ChannelRuns.CheckKeeps(out.builder, l1Head);
    NotClosed(b, out.builder);
    ChannelRuns.OutputFramesExact(b2, script);
    assert s.chans[s.current.value := s.chans[s.current.value].(builder := out.builder)][s.current.value].builder == out.builder;
  }

  /** The pipeline takes the last block it can, or refuses one, before all waiting blocks are in. */
  ghost predicate PipelineFull(answers: seq<AddResult>, blocks: nat) {
    exists n: nat :: n < blocks && StopsAt(answers, blocks, n) && !AnswerAt(answers, n).Broken?
  }

  lemma AddLoopFull(b: Builder, todo: seq<Block>, answers: seq<AddResult>)
    requires !b.IsFull()
    ensures AddLoop(b, todo, answers).builder.IsFull() <==> PipelineFull(answers, |todo|)
  {
    hide AddLoop;
    var n := StopExists(answers, |todo|);
    AddLoopExact(b, todo, answers, n);
    if PipelineFull(answers, |todo|) {
      var m: nat :| m < |todo| && StopsAt(answers, |todo|, m) && !AnswerAt(answers, m).Broken?;
      AddLoopExact(b, todo, answers, m);
    }
  }

  /** A filled channel is full exactly when the pipeline is, its deadline is reached, or its frame numbers are used up. */
  lemma FillFullExact<C>(s: Mgr<C>, l1Head: nat, answers: seq<AddResult>, script: FrameScript)
    requires Shape(s) && HasSpace(s) && |CurrentBuilder(s).frames| + |script.frames| <= MAX_FRAMES
    requires !FillCurrent(s, l1Head, answers, script).1.Failed?
    ensures var b' := FillCurrent(s, l1Head, answers, script).0.chans[s.current.value].builder;
      b'.IsFull() <==>
        || PipelineFull(answers, |s.blocks| - s.cursor)
        || (b'.timeout != 0 && b'.timeout <= l1Head)
        || (script.frames != [] && |b'.frames| == MAX_FRAMES)
  {
    hide AddLoop, OutputFrames, PipelineFull, ChanInv, Distinct, DaSum, BuilderInv;
    var b := CurrentBuilder(s);
    var todo := s.blocks[s.cursor..];
    var out := AddLoop(b, todo, answers);
    AddLoopFull(b, todo, answers);
    AddLoopSettings(b, todo, answers);
    CurrentBuilderInv(s);
    AddLoopAppends(b, todo, answers);
    ChannelRuns.CheckKeeps(out.builder, l1Head);
    NotClosed(b, out.builder);
    ChannelRuns.OutputFramesExact(CheckTimeout(out.builder, l1Head), script);
  }

  /** A channel with space was never closed. */
  lemma NotClosed(b: Builder, b': Builder)
    requires BuilderInv(b) && !b.IsFull() && b'.closed == b.closed
    ensures !b'.closed
  {
  }

  // ---------------------------------------------------------------- the ready channel

  /** Building is called for and fails: no channel can be made, the pipeline breaks, or it fails to emit frames. */
  ghost predicate BuildFails<C>(s: Mgr<C>, env: Env<C>)
    requires s.WellFormed()
  {
    && NoneSendable(s) && s.cursor < |s.blocks|
    && (|| (!HasSpace(s) && env.newborn.None?)
        || PipelineBreaks(env.answers, |s.blocks| - s.cursor)
        || env.script.fails)
  }

  /** Building touches no transaction: channels keep their cursors and transactions, and new ones start with none. */
  ghost predicate OnlyBuilt<C>(s: Mgr<C>, s': Mgr<C>) {
    && s' == s.(chans := s'.chans, queue := s'.queue, current := s'.current, cursor := s'.cursor, pendingDaBytes := s'.pendingDaBytes)
    && s.queue <= s'.queue
    && (forall c :: c in s.chans ==> c in s'.chans && SameSent(s.chans[c], s'.chans[c]))
    && (forall c :: c in s'.chans && c !in s.chans ==> Unsent(s'.chans[c], s.cfg))
  }

  ghost predicate SameSent(c: Chan, c': Chan) {
    && c' == c.(builder := c'.builder)
    && c'.builder.cfg == c.builder.cfg && c'.builder.frameCursor == c.builder.frameCursor && c'.builder.id == c.builder.id
  }

  ghost predicate Unsent(c: Chan, cfg: Config) {
    c.builder.cfg == cfg && c.builder.frameCursor == 0 && c.pending == map[] && c.confirmed == map[]
  }

  lemma EnsureBuilt<C>(s: Mgr<C>, env: Env<C>)
    requires Shape(s) && EnvOk(s, env) && (HasSpace(s) || env.newborn.Some?)
    ensures var s' := EnsureChannelWithSpace(s, env);
      && Shape(s') && OnlyBuilt(s, s') && HasSpace(s')
      && |CurrentBuilder(s').frames| + |env.script.frames| <= MAX_FRAMES
      && (forall c :: c in s'.queue && c != s'.current.value ==> c in s.queue && s'.chans[c] == s.chans[c])
      && s'.blocks == s.blocks && s'.cursor == s.cursor
  {
    hide ChanInv, Distinct, Held;
    if !HasSpace(s) {
      EnsureShape(s, env);
    }
  }

  lemma OnlyBuiltTrans<C>(s: Mgr<C>, s1: Mgr<C>, s2: Mgr<C>)
    requires OnlyBuilt(s, s1) && OnlyBuilt(s1, s2)
    ensures OnlyBuilt(s, s2)
  {
  }

  /** The channel answered ready is the oldest with something to send; otherwise none has any, or building failed. */
  lemma GetReadyExact<C>(s: Mgr<C>, l1Head: nat, env: Env<C>)
    requires Shape(s) && EnvOk(s, env)
    ensures var (s', r) := GetReadyChannel(s, l1Head, env);
      && OnlyBuilt(s, s')
      && (r.Failed? <==> BuildFails(s, env))
      && (r.Ready? ==> OldestReady(s', r.channel))
      && (r.NoData? ==> NoneSendable(s'))
  {
    hide Shape, EnvOk, EnsureChannelWithSpace, FillCurrent, OnlyBuilt, OldestReady, NoneSendable, PipelineBreaks, FirstWithTxData;
    ShapeWellFormed(s);
    FirstReady(s);
    if FirstWithTxData(s.chans, s.queue).Some? {
      ReadyMeansSome(s);
      NothingBuilt(s);
    } else if s.cursor == |s.blocks| || (!HasSpace(s) && env.newborn.None?) {
      NothingBuilt(s);
    } else {
      EnsureBuilt(s, env);
      FillReady(s, l1Head, env);
    }
  }

  lemma ReadyMeansSome<C>(s: Mgr<C>)
    requires Shape(s) && FirstWithTxData(s.chans, s.queue).Some?
    ensures !NoneSendable(s)
  {
    hide ChanInv, Distinct, Sendable;
    SendableExact(s.chans[FirstWithTxData(s.chans, s.queue).value]);
  }

  lemma NothingBuilt<C>(s: Mgr<C>)
    ensures OnlyBuilt(s, s)
  {
  }

  lemma FillReady<C>(s: Mgr<C>, l1Head: nat, env: Env<C>)
    requires Shape(s) && EnvOk(s, env) && (HasSpace(s) || env.newborn.Some?) && NoneSendable(s) && s.cursor < |s.blocks|
    ensures var s0 := EnsureChannelWithSpace(s, env);
      s0.WellFormed() && s0.current.Some? &&
      var (s', r) := FillCurrent(s0, l1Head, env.answers, env.script);
      && OnlyBuilt(s, s')
      && (r.Failed? <==> PipelineBreaks(env.answers, |s.blocks| - s.cursor) || env.script.fails)
      && (r.Ready? ==> OldestReady(s', r.channel))
      && (r.NoData? ==> NoneSendable(s'))
  {
    hide ChanInv, EnvOk, EnsureChannelWithSpace, FillCurrent, PipelineBreaks, Sendable, OnlyBuilt;
    var s0 := EnsureChannelWithSpace(s, env);
    EnsureBuilt(s, env);
    FillExact(s0, l1Head, env.answers, env.script);
    var (s', r) := FillCurrent(s0, l1Head, env.answers, env.script);
    FilledBuilt(s0, s');
    OnlyBuiltTrans(s, s0, s');
    var c, n := s0.current.value, |s0.queue| - 1;
    assert forall j :: 0 <= j < n ==> s0.queue[j] != c && s0.queue[j] in s.queue && s'.chans[s0.queue[j]] == s.chans[s0.queue[j]];
    if !r.Failed? {
      FilledSendable(s0, l1Head, env.answers, env.script);
    }
  }

  lemma FilledBuilt<C>(s: Mgr<C>, s': Mgr<C>)
    requires s.WellFormed() && s.current.Some?
    requires var c := s.current.value;
      && c in s'.chans && s'.chans == s.chans[c := s.chans[c].(builder := s'.chans[c].builder)]
      && s' == s.(chans := s'.chans, cursor := s'.cursor, pendingDaBytes := s'.pendingDaBytes)
      && s'.chans[c].builder.cfg == s.chans[c].builder.cfg && s'.chans[c].builder.frameCursor == s.chans[c].builder.frameCursor
      && s'.chans[c].builder.id == s.chans[c].builder.id
    ensures OnlyBuilt(s, s')
  {
  }

  /** After filling, the current channel's own test agrees with what it has to send. */
  lemma FilledSendable<C>(s: Mgr<C>, l1Head: nat, answers: seq<AddResult>, script: FrameScript)
    requires Shape(s) && HasSpace(s) && |CurrentBuilder(s).frames| + |script.frames| <= MAX_FRAMES
    requires !FillCurrent(s, l1Head, answers, script).1.Failed?
    ensures var c := FillCurrent(s, l1Head, answers, script).0.chans[s.current.value]; c.HasTxData() <==> Sendable(c)
  {
    hide AddLoop, OutputFrames, CheckTimeout, Shape, Distinct, DaSum, BuilderInv, ChanInv, Sendable;
    ShapeWellFormed(s);
    ProcessAppends(s, answers);
    var s1 := ProcessBlocks(s, answers).0;
    FinishedChan(s1, l1Head, script);
    FinishedIsTwoUpdates(s1, l1Head, script);
    SendableExact(Finished(s1, l1Head, script).chans[s.current.value]);
  }

  lemma FinishedChan<C>(s: Mgr<C>, l1Head: nat, script: FrameScript)
    requires Shape(s) && s.current.Some? && |CurrentBuilder(s).frames| + |script.frames| <= MAX_FRAMES
    ensures s.current.value in Finished(s, l1Head, script).chans && ChanInv(Finished(s, l1Head, script).chans[s.current.value])
  {
    hide ChanInv, BuilderInv, Shape, OutputFrames;
    ShapeWellFormed(s);
    CurrentBuilderInv(s);
    ChannelRuns.CheckKeeps(CurrentBuilder(s), l1Head);
    ChannelRuns.OutputFramesKeeps(CheckTimeout(CurrentBuilder(s), l1Head), script);
    CurrentKeeps(s, OutputFrames(CheckTimeout(CurrentBuilder(s), l1Head), script).0);
  }

  lemma GetReadyShape<C>(s: Mgr<C>, l1Head: nat, env: Env<C>)
    requires Shape(s) && EnvOk(s, env)
    ensures Shape(GetReadyChannel(s, l1Head, env).0)
  {
    hide Shape, EnvOk, ProcessBlocks, OutputFrames, CheckTimeout, Finished, SetBuilder, EnsureChannelWithSpace;
    ShapeWellFormed(s);
    if FirstWithTxData(s.chans, s.queue).None? && s.cursor < |s.blocks| && (HasSpace(s) || env.newborn.Some?) {
      EnsureBuilt(s, env);
      var s0 := EnsureChannelWithSpace(s, env);
      ShapeWellFormed(s0);
      ProcessAppends(s0, env.answers);
      var (s1, ok) := ProcessBlocks(s0, env.answers);
      if ok {
        FinishedShape(s1, l1Head, env.script);
        FinishedIsTwoUpdates(s1, l1Head, env.script);
      }
    }
  }

  lemma FinishedShape<C>(s: Mgr<C>, l1Head: nat, script: FrameScript)
    requires Shape(s) && s.current.Some? && |CurrentBuilder(s).frames| + |script.frames| <= MAX_FRAMES
    ensures Shape(Finished(s, l1Head, script))
  {
    hide ChanInv, BuilderInv, Shape, OutputFrames;
    ShapeWellFormed(s);
    CurrentBuilderInv(s);
    ChannelRuns.CheckKeeps(CurrentBuilder(s), l1Head);
    ChannelRuns.OutputFramesKeeps(CheckTimeout(CurrentBuilder(s), l1Head), script);
    var b := OutputFrames(CheckTimeout(CurrentBuilder(s), l1Head), script).0;
    CurrentKeeps(s, b);
    SetBuilderShape(s, b);
  }

  // ---------------------------------------------------------------- the transaction

  /** The transaction carries the frames from `start` to the cursor: a whole transaction's, or all that are left. */
  ghost predicate HandsOut(start: nat, c: Chan, d: TxData) {
    var b, n := c.builder, |d.frames|;
    var size := if b.cfg.useBlobs then b.cfg.targetNumFrames else 1;
    && 0 < n && start + n == b.frameCursor <= |b.frames| && d.frames == b.frames[start..start + n]
    && (n == size || (n < size && b.frameCursor == |b.frames|))
    && d.asBlob == b.cfg.useBlobs
    && IdOf(d.frames) in c.pending && c.pending[IdOf(d.frames)] == d
  }

  lemma HandsOutNext(c: Chan)
    requires ChanInv(c) && c.HasTxData()
    ensures var (c', d) := NextTxData(c); HandsOut(c.builder.frameCursor, c', d)
  {
    hide PendingNamed, ConfirmedNamed, CursorCovered, NewestOrigin;
  }

  /** Handing out: one channel's cursor moves on, the transaction is pending there and indexed, and the L1 origin is kept. */
  lemma NextTxExact<C>(s: Mgr<C>, c: C)
    requires Shape(s) && c in s.queue && s.chans[c].HasTxData()
    ensures var (s', tx) := ManagerNextTx(s, c);
      && tx.Some? && c in s'.chans && HandsOut(s.chans[c].builder.frameCursor, s'.chans[c], tx.value)
      && s'.txs == s.txs[IdOf(tx.value.frames) := c]
      && s'.chans == s.chans[c := s'.chans[c]]
      && s'.chans[c].builder == s.chans[c].builder.(frameCursor := s'.chans[c].builder.frameCursor)
      && s' == s.(chans := s'.chans, txs := s'.txs, l1OriginLast := s'.l1OriginLast)
      && s.l1OriginLast <= s'.l1OriginLast
      && (forall b :: b in s.chans[c].builder.blocks ==> b.l1Origin <= s'.l1OriginLast)
      && (s'.l1OriginLast == s.l1OriginLast || exists b :: b in s.chans[c].builder.blocks && b.l1Origin == s'.l1OriginLast)
  {
    hide HandsOut, ChanInv, Distinct;
    HandsOutNext(s.chans[c]);
    NewestOf(s.chans[c]);
  }

  lemma NewestOf(c: Chan)
    requires ChanInv(c)
    ensures forall b :: b in c.builder.blocks ==> b.l1Origin <= c.builder.latestL1
    ensures c.builder.latestL1 == 0 || exists b :: b in c.builder.blocks && b.l1Origin == c.builder.latestL1
  {
    hide PendingNamed, ConfirmedNamed, CursorCovered;
    if c.builder.blocks != [] {
      var i :| 0 <= i < |c.builder.blocks| && c.builder.blocks[i].l1Origin == c.builder.latestL1;
      assert c.builder.blocks[i] in c.builder.blocks;
    }
  }

  /** The first frame a channel has not handed out in `s`; a channel that is not there yet starts at 0. */
  ghost function StartOf<C>(s: Mgr<C>, c: C): nat {
    if c in s.chans then s.chans[c].builder.frameCursor else 0
  }

  ghost predicate SameStarts<C>(s: Mgr<C>, s': Mgr<C>) {
    && (forall c :: c in s.chans ==> c in s'.chans)
    && (forall c :: c in s'.chans ==> s'.chans[c].builder.frameCursor == StartOf(s, c))
  }

  lemma BuiltSameStarts<C>(s: Mgr<C>, s': Mgr<C>)
    requires OnlyBuilt(s, s')
    ensures SameStarts(s, s')
  {
  }

  /** A channel has handed out frames between `s` and `s'`. */
  ghost predicate HandedOut<C>(s: Mgr<C>, s': Mgr<C>) {
    exists c :: c in s'.chans && StartOf(s, c) < s'.chans[c].builder.frameCursor
  }

  /** A queued channel handed out `d` between `s` and `s'`, it is pending there and indexed, and no older channel was ready. */
  ghost predicate Sent<C>(s: Mgr<C>, s': Mgr<C>, d: TxData)
    requires s'.WellFormed()
  {
    exists i :: 0 <= i < |s'.queue| && HandsOut(StartOf(s, s'.queue[i]), s'.chans[s'.queue[i]], d)
                && IdOf(d.frames) in s'.txs && s'.txs[IdOf(d.frames)] == s'.queue[i]
                && forall j :: 0 <= j < i ==> !Sendable(s'.chans[s'.queue[j]])
  }

  lemma SendExact<C>(s: Mgr<C>, s1: Mgr<C>, r: Ready<C>)
    requires Shape(s1) && SameStarts(s, s1)
    requires (r.Ready? ==> OldestReady(s1, r.channel)) && (r.NoData? ==> NoneSendable(s1))
    ensures r.Ready? ==> r.channel in s1.chans
    ensures var (s', out) := SendFrom(s1, r);
      && s'.WellFormed() && s'.cfg == s1.cfg && s'.queue == s1.queue
      && (out.Tx? <==> r.Ready?) && (out.TxError? <==> r.Failed?)
      && (out.Tx? <==> HandedOut(s, s'))
      && (out.Tx? ==> Sent(s, s', out.data) && out.data.asBlob == s1.chans[r.channel].builder.cfg.useBlobs)
      && (out.TxEof? ==> NoneSendable(s'))
  {
    hide Shape, Sent, NoneSendable, ManagerNextTx;
    ShapeWellFormed(s1);
    if r.Ready? {
      SendReady(s, s1, r.channel);
    } else {
      NotHandedOut(s, s1);
    }
  }

  lemma NotHandedOut<C>(s: Mgr<C>, s': Mgr<C>)
    requires SameStarts(s, s')
    ensures !HandedOut(s, s')
  {
  }

  lemma SendReady<C>(s: Mgr<C>, s1: Mgr<C>, c: C)
    requires Shape(s1) && SameStarts(s, s1) && OldestReady(s1, c)
    ensures c in s1.chans
    ensures var (s', tx) := ManagerNextTx(s1, c);
      && tx.Some? && s'.WellFormed() && s'.cfg == s1.cfg && s'.queue == s1.queue && HandedOut(s, s')
      && Sent(s, s', tx.value) && tx.value.asBlob == s1.chans[c].builder.cfg.useBlobs
  {
    hide ChanInv, HandsOut, Sendable, Distinct;
    var i :| 0 <= i < |s1.queue| && s1.queue[i] == c && Sendable(s1.chans[c])
             && forall j :: 0 <= j < i ==> !Sendable(s1.chans[s1.queue[j]]);
    SendableExact(s1.chans[c]);
    NextTxExact(s1, c);
    var (s', tx) := ManagerNextTx(s1, c);
    hide ManagerNextTx;
    HandsOutMoves(s1.chans[c].builder.frameCursor, s'.chans[c], tx.value);
    OthersAsBefore(s1, s', c, i);
    assert s'.queue[i] == c;
  }

  lemma OthersAsBefore<C>(s: Mgr<C>, s': Mgr<C>, c: C, i: nat)
    requires Shape(s) && i < |s.queue| && s.queue[i] == c && s'.queue == s.queue && c in s'.chans && s'.chans == s.chans[c := s'.chans[c]]
    ensures s'.chans.Keys == s.chans.Keys
    ensures forall j :: 0 <= j < i ==> s'.chans[s'.queue[j]] == s.chans[s.queue[j]]
  {
    hide ChanInv;
  }

  lemma HandsOutMoves(start: nat, c: Chan, d: TxData)
    requires HandsOut(start, c, d)
    ensures start < c.builder.frameCursor && d.asBlob == c.builder.cfg.useBlobs
  {
  }

  // ---------------------------------------------------------------- the answer

  /** The state in which a switch of the DA type starts over. */
  ghost function Requeued<C>(s: Mgr<C>, op: Op<C>): Option<Mgr<C>>
    requires s.WellFormed() && op.OpTxData? && Switches(s, op)
  {
    var (s1, r1) := GetReadyChannel(s, op.l1Head, op.env);
    match Invalidate(s1, r1.channel)
    case None => None
    case Some(s2) => Some(s2.(cfg := op.cfg))
  }

  /** The DA type is switched exactly when it differs and the oldest ready channel has nothing submitted. */
  lemma SwitchesExact<C>(s: Mgr<C>, op: Op<C>)
    requires Shape(s) && op.OpTxData? && EnvOk(s, op.env)
    ensures var s1 := GetReadyChannel(s, op.l1Head, op.env).0;
      Switches(s, op) <==>
        && op.cfg.useBlobs != s.cfg.useBlobs && !BuildFails(s, op.env)
        && exists c :: c in s1.chans && OldestReady(s1, c) && s1.chans[c].pending == map[] && s1.chans[c].confirmed == map[]
  {
    hide Shape, EnvOk, GetReadyChannel, BuildFails, OldestReady, NoneSendable;
    ShapeWellFormed(s);
    GetReadyExact(s, op.l1Head, op.env);
    var (s1, r1) := GetReadyChannel(s, op.l1Head, op.env);
    assert s1.cfg == s.cfg by {
      BuiltSettings(s, s1);
    }
    forall c | OldestReady(s1, c)
      ensures r1.NoData? ==> false
      ensures r1.Ready? ==> c == r1.channel
    {
      OldestUnique(s1, c, r1);
    }
    if r1.Ready? {
      ChannelRuns.NonEmpty(s1.chans[r1.channel].pending);
      ChannelRuns.NonEmpty(s1.chans[r1.channel].confirmed);
    }
  }

  lemma BuiltSettings<C>(s: Mgr<C>, s': Mgr<C>)
    requires OnlyBuilt(s, s')
    ensures s'.cfg == s.cfg && s'.txs == s.txs && s.queue <= s'.queue
  {
  }

  lemma OldestUnique<C>(s: Mgr<C>, c: C, r: Ready<C>)
    requires s.WellFormed() && OldestReady(s, c)
    requires (r.Ready? ==> OldestReady(s, r.channel)) && (r.NoData? ==> NoneSendable(s))
    ensures !r.NoData? && (r.Ready? ==> c == r.channel)
  {
    hide Sendable;
    var i :| 0 <= i < |s.queue| && s.queue[i] == c && Sendable(s.chans[c]) && forall j :: 0 <= j < i ==> !Sendable(s.chans[s.queue[j]]);
    assert s.queue[i] in s.queue;
    if r.Ready? {
      var k :| 0 <= k < |s.queue| && s.queue[k] == r.channel && Sendable(s.chans[r.channel])
               && forall j :: 0 <= j < k ==> !Sendable(s.chans[s.queue[j]]);
      assert i == k;
    }
  }

  /** Once the oldest ready channel and all newer ones are dropped, nothing is ready, and a new channel is filled. */
  lemma RequeuedNoneSendable<C>(s: Mgr<C>, c: C)
    requires Shape(s) && c in s.chans && OldestReady(s, c) && Invalidate(s, c).Some?
    ensures var s2 := Invalidate(s, c).value; s2.WellFormed() && NoneSendable(s2) && s2.current.None? && s2.chans == s.chans
  {
    hide ChanInv, Sendable, DaSum, IndexOf;
    var i :| 0 <= i < |s.queue| && s.queue[i] == c && Sendable(s.chans[c]) && forall j :: 0 <= j < i ==> !Sendable(s.chans[s.queue[j]]);
    assert IndexOf(s.queue, c) == i;
  }

  lemma NewlyBuilt<C>(s: Mgr<C>, l1Head: nat, env: Env<C>)
    requires Shape(s) && EnvOk(s, env) && NoneSendable(s) && s.current.None?
    ensures var (s', r) := GetReadyChannel(s, l1Head, env);
      r.Ready? ==> r.channel in s'.chans && s'.chans[r.channel].builder.cfg == s.cfg
  {
    hide Shape, EnvOk, FillCurrent, FirstWithTxData, EnsureChannelWithSpace;
    ShapeWellFormed(s);
    FirstNone(s);
    if s.cursor < |s.blocks| && env.newborn.Some? {
      EnsureBuilt(s, env);
      NewIsCurrent(s, env);
      FillExact(EnsureChannelWithSpace(s, env), l1Head, env.answers, env.script);
    }
  }

  lemma FirstNone<C>(s: Mgr<C>)
    requires Shape(s) && NoneSendable(s)
    ensures FirstWithTxData(s.chans, s.queue).None?
  {
    hide ChanInv, Distinct, Sendable;
    var first := FirstWithTxData(s.chans, s.queue);
    if first.Some? {
      SendableExact(s.chans[first.value]);
    }
  }

  /** A new channel is made with the configuration and the deadline of the moment. */
  lemma NewIsCurrent<C>(s: Mgr<C>, env: Env<C>)
    requires s.WellFormed() && !HasSpace(s) && env.newborn.Some?
    ensures var s' := EnsureChannelWithSpace(s, env);
      var c := env.newborn.value;
      && s'.current == Some(c) && s'.queue == s.queue + [c] && c in s'.chans
      && s'.chans[c].builder.cfg == s.cfg && s'.chans[c].builder.id == env.id && s'.chans[c].builder.blocks == []
      && s'.chans[c].builder.timeout ==
           (if s.cfg.maxChannelDuration == 0 then 0 else (s.l1OriginLast + s.cfg.maxChannelDuration) % 0x1_0000_0000_0000_0000)
  {
  }

  /**
   The answer to a request for the next transaction. It is a transaction exactly when a channel hands out frames, and then
   these are the next frames of the oldest ready channel, in that channel's DA type, pending there and indexed. It is an
   error exactly when building failed. Otherwise no queued channel has anything to send. After a switch the transaction
   is of the new DA type.
   */
  lemma TxAnswerExact<C>(s: Mgr<C>, op: Op<C>)
    requires MgrInv(s) && op.OpTxData? && op.cfg.Check() && FactoryOk(s, op)
    ensures var r := ManagerTxData(s, op.l1Head, op.cfg, op.env, op.env2);
      && (r.None? <==> Switches(s, op) && Requeued(s, op).None?)
      && (r.Some? ==>
            var (s', out) := r.value;
            && s'.WellFormed() && s'.cfg == (if Switches(s, op) then op.cfg else s.cfg)
            && (out.Tx? <==> HandedOut(s, s'))
            && (out.Tx? ==> Sent(s, s', out.data))
            && (out.Tx? && Switches(s, op) ==> out.data.asBlob == op.cfg.useBlobs)
            && (out.TxError? <==>
                  if Switches(s, op) then Requeued(s, op).Some? && Requeued(s, op).value.WellFormed() && BuildFails(Requeued(s, op).value, op.env2)
                  else BuildFails(s, op.env))
            && (out.TxEof? ==> NoneSendable(s')))
  {
    hide Shape, Conserved, Retained, Indexed, StaleBelow, TipOk, EnvOk;
    hide GetReadyChannel, SendFrom, Invalidate, BuildFails, OldestReady, NoneSendable, HandedOut, Sent, SameStarts, OnlyBuilt;
    ShapeWellFormed(s);
    GetReadyExact(s, op.l1Head, op.env);
    GetReadyShape(s, op.l1Head, op.env);
    var (s1, r1) := GetReadyChannel(s, op.l1Head, op.env);
    BuiltSettings(s, s1);
    BuiltSameStarts(s, s1);
    if Switches(s, op) {
      if Invalidate(s1, r1.channel).Some? {
        var s2 := Invalidate(s1, r1.channel).value.(cfg := op.cfg);
        RequeuedShape(s, op);
        RequeuedAnswer(s, s1, r1.channel, op);
      }
    } else {
      SendExact(s, s1, r1);
    }
  }

  lemma RequeuedShape<C>(s: Mgr<C>, op: Op<C>)
    requires MgrInv(s) && op.OpTxData? && op.cfg.Check() && FactoryOk(s, op) && Switches(s, op)
    requires var (s1, r1) := GetReadyChannel(s, op.l1Head, op.env); Invalidate(s1, r1.channel).Some?
    ensures var (s1, r1) := GetReadyChannel(s, op.l1Head, op.env);
      var s2 := Invalidate(s1, r1.channel).value.(cfg := op.cfg);
      Shape(s2) && EnvOk(s2, op.env2)
  {
    hide Shape, Conserved, Retained, Indexed, StaleBelow, TipOk, EnvOk, GetReadyChannel, Invalidate;
    ShapeWellFormed(s);
    GetReadyKeeps(s, op.l1Head, op.env);
    var (s1, r1) := GetReadyChannel(s, op.l1Head, op.env);
    ShapeWellFormed(s1);
    InvalidateRest(s1, r1.channel);
    var s2 := Invalidate(s1, r1.channel).value;
    CfgKeepsShape(s2, op.cfg);
    EnvIgnoresCfg(s2, op.cfg, op.env2);
  }

  lemma RequeuedAnswer<C>(s: Mgr<C>, s1: Mgr<C>, c: C, op: Op<C>)
    requires Shape(s1) && SameStarts(s, s1) && op.OpTxData? && c in s1.chans && OldestReady(s1, c) && Invalidate(s1, c).Some?
    requires var s2 := Invalidate(s1, c).value.(cfg := op.cfg); Shape(s2) && EnvOk(s2, op.env2)
    ensures var s2 := Invalidate(s1, c).value.(cfg := op.cfg);
      var (s3, r3) := GetReadyChannel(s2, op.l1Head, op.env2);
      var (s', out) := SendFrom(s3, r3);
      && s'.WellFormed() && s'.cfg == op.cfg
      && (out.Tx? <==> HandedOut(s, s'))
      && (out.Tx? ==> Sent(s, s', out.data) && out.data.asBlob == op.cfg.useBlobs)
      && (out.TxError? <==> BuildFails(s2, op.env2))
      && (out.TxEof? ==> NoneSendable(s'))
  {
    hide Shape, EnvOk, GetReadyChannel, SendFrom, Invalidate, BuildFails, OldestReady, NoneSendable, HandedOut, Sent, OnlyBuilt, SameStarts;
    ShapeWellFormed(s1);
    var s2 := Invalidate(s1, c).value.(cfg := op.cfg);
    ShapeWellFormed(s2);
    RequeuedNoneSendable(s1, c);
    SameChansNone(Invalidate(s1, c).value, op.cfg);
    GetReadyExact(s2, op.l1Head, op.env2);
    GetReadyShape(s2, op.l1Head, op.env2);
    NewlyBuilt(s2, op.l1Head, op.env2);
    var (s3, r3) := GetReadyChannel(s2, op.l1Head, op.env2);
    BuiltSettings(s2, s3);
    BuiltSameStarts(s2, s3);
    StartsTrans(s, s1, s2, s3);
    SendExact(s, s3, r3);
  }

  lemma SameChansNone<C>(s: Mgr<C>, cfg: Config)
    requires s.WellFormed() && NoneSendable(s)
    ensures s.(cfg := cfg).WellFormed() && NoneSendable(s.(cfg := cfg))
  {
    hide Sendable;
  }

  lemma StartsTrans<C>(s: Mgr<C>, s1: Mgr<C>, s2: Mgr<C>, s3: Mgr<C>)
    requires SameStarts(s, s1) && s2.chans == s1.chans && SameStarts(s2, s3)
    ensures SameStarts(s, s3)
  {
  }
}
