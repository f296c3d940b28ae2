/**
 Building transactions: creating a channel, filling it with blocks, emitting
 frames and handing them out keep the manager's invariant.
 */
module ManagerBuild {
  import opened BatcherTypes
  import opened ChannelBuilders
  import opened Channels
  import opened ManagerState
  import opened ManagerInvariant
  import opened ManagerSteps
  import opened Chains

  /** The channel factory's discipline: a new object, an id no other channel has, at most 2^16 frames per channel. */
  ghost predicate EnvOk<C>(s: Mgr<C>, env: Env<C>)
    requires s.WellFormed()
  {
    && (env.newborn.Some? ==> env.newborn.value !in s.chans)
    && (forall c :: c in s.chans ==> s.chans[c].builder.id != env.id)
    && (if HasSpace(s) then |CurrentBuilder(s).frames| else 0) + |env.script.frames| <= MAX_FRAMES
  }

  lemma EnsureShape<C>(s: Mgr<C>, env: Env<C>)
    requires Shape(s) && EnvOk(s, env) && !HasSpace(s) && env.newborn.Some?
    ensures Shape(EnsureChannelWithSpace(s, env))
    ensures Held(EnsureChannelWithSpace(s, env).chans, EnsureChannelWithSpace(s, env).queue) == Held(s.chans, s.queue)
  {
    hide ChanInv;
    var s' := EnsureChannelWithSpace(s, env);
    NewChanInv(s.cfg, env.id, s.l1OriginLast);
    HeldSame(s.chans, s'.chans, s.queue);
    HeldConcat(s'.chans, s.queue, [env.newborn.value]);
    assert Held(s'.chans, [env.newborn.value]) == [] + Held(s'.chans, []);
  }

  lemma EnsureKeeps<C>(s: Mgr<C>, env: Env<C>)
    requires MgrInv(s) && EnvOk(s, env) && s.blocks != [] && (HasSpace(s) || env.newborn.Some?)
    ensures var s' := EnsureChannelWithSpace(s, env);
      && MgrInv(s') && Excess(s') == Excess(s) && HasSpace(s')
      && |CurrentBuilder(s').frames| + |env.script.frames| <= MAX_FRAMES
  {
    hide Shape, ChanInv, Held, Chained, DaSum, Indexed, StaleBelow, Retained;
    ShapeWellFormed(s);
    if !HasSpace(s) {
      EnsureShape(s, env);
      ShapeWellFormed(EnsureChannelWithSpace(s, env));
      EnsureIndexed(s, env);
    }
  }

  /** The new channel has nothing: no block to retain, no transaction to index. */
  lemma EnsureIndexed<C>(s: Mgr<C>, env: Env<C>)
    requires s.WellFormed() && EnvOk(s, env) && !HasSpace(s) && env.newborn.Some?
    requires Retained(s) && Indexed(s) && StaleBelow(s)
    ensures var s' := EnsureChannelWithSpace(s, env); s'.WellFormed() && Retained(s') && Indexed(s') && StaleBelow(s')
  {
    var s' := EnsureChannelWithSpace(s, env);
    assert forall c :: c in s'.queue <==> c in s.queue || c == env.newborn.value;
  }

  lemma AddBlockEffect(b: Builder, block: Block, answer: AddResult)
    ensures var (b', status) := AddBlock(b, block, answer);
      && b'.blocks == (if status == AddOk then b.blocks + [block] else b.blocks)
      && b'.id == b.id && b'.frames == b.frames && b'.frameCursor == b.frameCursor
  {
  }

  /** Adding blocks appends a prefix of them to the channel and touches no frame. */
  lemma {:induction false} AddLoopAppends(b: Builder, todo: seq<Block>, answers: seq<AddResult>)
    requires BuilderInv(b)
    ensures var out := AddLoop(b, todo, answers);
      && BuilderInv(out.builder)
      && out.builder.blocks == b.blocks + todo[..out.added]
      && out.builder.id == b.id && out.builder.frames == b.frames && out.builder.frameCursor == b.frameCursor
    decreases |todo|
  {
    hide BuilderInv, AddBlock;
    if todo != [] {
      var answer := if answers == [] then Broken else answers[0];
      var (b1, status) := AddBlock(b, todo[0], answer);
      AddBlockKeeps(b, todo[0], answer);
      AddBlockEffect(b, todo[0], answer);
      if status == AddOk && !b1.IsFull() {
        AddLoopAppends(b1, todo[1..], if answers == [] then [] else answers[1..]);
        var added := AddLoop(b, todo, answers).added;
        assert todo[..added] == [todo[0]] + todo[1..][..added - 1];
      }
    }
  }

  lemma SetBuilderShape<C>(s: Mgr<C>, b: Builder)
    requires Shape(s) && s.current.Some? && ChanInv(s.chans[s.current.value].(builder := b))
    requires b.id == CurrentBuilder(s).id
    ensures Shape(SetBuilder(s, b))
  {
    hide ChanInv, Distinct;
  }

  /** Replacing the current channel's builder by one with more blocks at the end. */
  lemma GrowCurrent<C>(s: Mgr<C>, b: Builder, more: seq<Block>)
    requires Shape(s) && s.current.Some? && b.blocks == CurrentBuilder(s).blocks + more
    ensures Held(SetBuilder(s, b).chans, s.queue) == Held(s.chans, s.queue) + more
  {
    hide ChanInv, Held;
    var s' := SetBuilder(s, b);
    var n := |s.queue| - 1;
    var front := s.queue[..n];
    HeldAt(s, n);
    HeldAt(s', n);
    forall c | c in front
      ensures c != s.current.value
    {
      var i :| 0 <= i < n && s.queue[i] == c;
    }
    HeldSame(s.chans, s'.chans, front);
    HeldNone(s.chans, s.queue[n + 1..]);
    HeldNone(s'.chans, s.queue[n + 1..]);
  }

  lemma HeldNone<C>(chans: map<C, Chan>, q: seq<C>)
    requires q == []
    ensures Held(chans, q) == []
  {
  }

  /** The cursor and the byte counter are no part of the shape. */
  lemma CursorKeepsShape<C>(s: Mgr<C>, cursor: nat, bytes: int)
    requires Shape(s) && cursor <= |s.blocks|
    ensures Shape(s.(cursor := cursor, pendingDaBytes := bytes))
  {
    hide ChanInv, Distinct;
  }

  lemma CurrentBuilderInv<C>(s: Mgr<C>)
    requires Shape(s) && s.current.Some?
    ensures BuilderInv(CurrentBuilder(s))
  {
    hide BuilderInv;
    assert ChanInv(s.chans[s.current.value]);
  }

  lemma CurrentKeeps<C>(s: Mgr<C>, b: Builder)
    requires Shape(s) && s.current.Some? && BuilderInv(b)
    requires b.id == CurrentBuilder(s).id && b.frameCursor == CurrentBuilder(s).frameCursor
    requires |CurrentBuilder(s).frames| <= |b.frames| && b.frames[..|CurrentBuilder(s).frames|] == CurrentBuilder(s).frames
    ensures ChanInv(s.chans[s.current.value].(builder := b))
  {
    hide ChanInv, BuilderInv;
    BuilderChangeKeeps(s.chans[s.current.value], b);
  }

  /** What the loop that adds blocks does to the current channel. */
  lemma ProcessAppends<C>(s: Mgr<C>, answers: seq<AddResult>)
    requires Shape(s) && s.current.Some?
    ensures var s' := ProcessBlocks(s, answers).0;
      var more := s.blocks[s.cursor..s'.cursor];
      && Shape(s') && s'.current == s.current && s'.queue == s.queue
      && Held(s'.chans, s.queue) == Held(s.chans, s.queue) + more
      && CurrentBuilder(s').blocks == CurrentBuilder(s).blocks + more
      && CurrentBuilder(s').frames == CurrentBuilder(s).frames
  {
    hide ChanInv, BuilderInv, Held, Shape, AddLoop, DaSum;
    ShapeWellFormed(s);
    var todo := s.blocks[s.cursor..];
    var b := CurrentBuilder(s);
    var out := AddLoop(b, todo, answers);
    CurrentBuilderInv(s);
    AddLoopAppends(b, todo, answers);
    CurrentKeeps(s, out.builder);
    SetBuilderShape(s, out.builder);
    GrowCurrent(s, out.builder, todo[..out.added]);
    assert todo[..out.added] == s.blocks[s.cursor..s.cursor + out.added];
    CursorKeepsShape(SetBuilder(s, out.builder), s.cursor + out.added, ProcessBlocks(s, answers).0.pendingDaBytes);
  }

  lemma ProcessConserves<C>(s: Mgr<C>, answers: seq<AddResult>)
    requires Shape(s) && s.current.Some?
    ensures Conserved(ProcessBlocks(s, answers).0) <==> Conserved(s)
  {
    hide Shape, Held, Chained, AddLoop;
    ShapeWellFormed(s);
    var s' := ProcessBlocks(s, answers).0;
    ProcessAppends(s, answers);
    ChainedAdvance(Held(s.chans, s.queue), s.blocks, s.cursor, s'.cursor - s.cursor);
  }

  /** The current channel now ends at the block before the cursor; the others are as they were. */
  lemma ProcessRetains<C>(s: Mgr<C>, answers: seq<AddResult>)
    requires Shape(s) && Conserved(s) && Retained(s) && s.current.Some?
    ensures Retained(ProcessBlocks(s, answers).0)
  {
    hide Shape, Conserved, ProcessBlocks, Held, Consecutive;
    ShapeWellFormed(s);
    var s' := ProcessBlocks(s, answers).0;
    ProcessAppends(s, answers);
    ProcessOthers(s, answers);
    if s'.cursor != s.cursor {
      ConservedConsecutive(s);
      LastAdded(s.blocks, CurrentBuilder(s).blocks, s.cursor, s'.cursor);
    }
  }

  /** Filling the current channel takes blocks from the cursor on, and concerns no other channel. */
  lemma ProcessOthers<C>(s: Mgr<C>, answers: seq<AddResult>)
    requires s.WellFormed() && s.current.Some?
    ensures var s' := ProcessBlocks(s, answers).0;
      && s'.blocks == s.blocks && s'.queue == s.queue && s.cursor <= s'.cursor <= |s.blocks| && s'.chans.Keys == s.chans.Keys
      && (forall c :: c in s.chans && c != s.current.value ==> s'.chans[c] == s.chans[c])
  {
    hide AddLoop, DaSum;
  }

  lemma LastAdded(blocks: seq<Block>, own: seq<Block>, cursor: nat, cursor': nat)
    requires Consecutive(blocks) && cursor < cursor' <= |blocks|
    ensures blocks[0].number <= Last(own + blocks[cursor..cursor']).number
  {
    assert Last(own + blocks[cursor..cursor']) == blocks[cursor' - 1];
  }

  lemma ProcessCounts<C>(s: Mgr<C>, answers: seq<AddResult>)
    requires s.WellFormed() && s.current.Some?
    ensures Excess(ProcessBlocks(s, answers).0) == Excess(s)
  {
    hide AddLoop;
    var s' := ProcessBlocks(s, answers).0;
    assert s.blocks[s.cursor..] == s.blocks[s.cursor..s'.cursor] + s.blocks[s'.cursor..];
    DaSumConcat(s.blocks[s.cursor..s'.cursor], s.blocks[s'.cursor..]);
  }

  lemma ProcessKeeps<C>(s: Mgr<C>, answers: seq<AddResult>)
    requires MgrInv(s) && s.current.Some?
    ensures var s' := ProcessBlocks(s, answers).0;
      && MgrInv(s') && Excess(s') == Excess(s) && s'.current == s.current
      && CurrentBuilder(s').frames == CurrentBuilder(s).frames
  {
    hide ChanInv, Held, Chained, Conserved, Retained, Excess, AddLoop;
    ProcessAppends(s, answers);
    ProcessConserves(s, answers);
    ProcessRetains(s, answers);
    ProcessCounts(s, answers);
    assert s.current.value in s.queue;
  }

  /** Timeouts and new frames change the current channel's builder only. */
  lemma SetBuilderKeeps<C>(s: Mgr<C>, b: Builder)
    requires MgrInv(s) && s.current.Some? && BuilderInv(b)
    requires b.id == CurrentBuilder(s).id && b.frameCursor == CurrentBuilder(s).frameCursor
    requires b.blocks == CurrentBuilder(s).blocks
    requires |CurrentBuilder(s).frames| <= |b.frames| && b.frames[..|CurrentBuilder(s).frames|] == CurrentBuilder(s).frames
    ensures MgrInv(SetBuilder(s, b)) && Excess(SetBuilder(s, b)) == Excess(s)
  {
    hide ChanInv, BuilderInv, Conserved, Retained, StaleBelow, Excess;
    CurrentKeeps(s, b);
    var ch := s.chans[s.current.value].(builder := b);
    UpdateKeeps(s, s.current.value, ch, s.txs);
    assert s.(chans := s.chans[s.current.value := ch], txs := s.txs) == SetBuilder(s, b);
  }

  /** Registering the L1 head and emitting frames. */
  ghost function Finished<C>(s: Mgr<C>, l1Head: nat, script: FrameScript): Mgr<C>
    requires s.WellFormed() && s.current.Some?
  {
    SetBuilder(s, OutputFrames(CheckTimeout(CurrentBuilder(s), l1Head), script).0)
  }

  lemma FinishedKeeps<C>(s: Mgr<C>, l1Head: nat, script: FrameScript)
    requires MgrInv(s) && s.current.Some? && |CurrentBuilder(s).frames| + |script.frames| <= MAX_FRAMES
    ensures MgrInv(Finished(s, l1Head, script)) && Excess(Finished(s, l1Head, script)) == Excess(s)
    ensures Finished(s, l1Head, script).current == s.current
  {
    hide ChanInv, Conserved, Retained, StaleBelow, Indexed, TipOk, Excess;
    CurrentBuilderInv(s);
    var b := CheckTimeout(CurrentBuilder(s), l1Head);
    var b' := b.(closed := b.closed || b.IsFull());
    OutputAllAppends(b', script.frames);
    SetBuilderKeeps(s, OutputFrames(b, script).0);
  }

  lemma FinishedIsTwoUpdates<C>(s: Mgr<C>, l1Head: nat, script: FrameScript)
    requires s.WellFormed() && s.current.Some?
    ensures var s2 := SetBuilder(s, CheckTimeout(CurrentBuilder(s), l1Head));
      && CurrentBuilder(s2) == CheckTimeout(CurrentBuilder(s), l1Head)
      && SetBuilder(s2, OutputFrames(CurrentBuilder(s2), script).0) == Finished(s, l1Head, script)
  {
    hide OutputFrames, CheckTimeout;
  }

  lemma GetReadyKeeps<C>(s: Mgr<C>, l1Head: nat, env: Env<C>)
    requires MgrInv(s) && EnvOk(s, env)
    ensures var (s', r) := GetReadyChannel(s, l1Head, env);
      && MgrInv(s') && Excess(s') == Excess(s) && (r.Ready? ==> r.channel in s'.queue)
  {
    hide ChanInv, Conserved, Retained, StaleBelow, Indexed, TipOk, Excess, Distinct;
    hide ProcessBlocks, OutputFrames, CheckTimeout, Finished, SetBuilder, EnsureChannelWithSpace;
    var first := FirstWithTxData(s.chans, s.queue);
    if first.None? && s.cursor < |s.blocks| && (HasSpace(s) || env.newborn.Some?) {
      EnsureKeeps(s, env);
      var s0 := EnsureChannelWithSpace(s, env);
      ProcessKeeps(s0, env.answers);
      var (s1, ok) := ProcessBlocks(s0, env.answers);
      if ok {
        FinishedKeeps(s1, l1Head, env.script);
        FinishedIsTwoUpdates(s1, l1Head, env.script);
      }
    }
  }

  /** The origin of the last submitted channel and the next channel's configuration are outside the invariant. */
  lemma SettingsKeep<C>(s: Mgr<C>, l1Origin: nat, cfg: Config)
    requires MgrInv(s) && cfg.Check()
    ensures MgrInv(s.(l1OriginLast := l1Origin, cfg := cfg))
    ensures Excess(s.(l1OriginLast := l1Origin, cfg := cfg)) == Excess(s)
  {
    hide ChanInv, Chained, Held;
  }

  /** Submitting from a queued channel: the id is new to every other channel. */
  lemma IndexedInsert<C>(s: Mgr<C>, c: C, ch: Chan, id: TxId)
    requires Shape(s) && Indexed(s) && c in s.queue
    requires id != [] && id[0].chan == s.chans[c].builder.id
    requires id in ch.pending && ch.pending.Keys == s.chans[c].pending.Keys + {id}
    ensures var s' := s.(chans := s.chans[c := ch], txs := s.txs[id := c]);
      s'.WellFormed() && Indexed(s')
  {
    hide ChanInv;
    if id in s.txs {
      IndexedNames(s, id);
    }
  }

  lemma NextTxKeeps<C>(s: Mgr<C>, c: C)
    requires MgrInv(s) && c in s.queue
    ensures MgrInv(ManagerNextTx(s, c).0) && Excess(ManagerNextTx(s, c).0) == Excess(s)
  {
    hide ChanInv, BuilderInv, Conserved, Retained, StaleBelow, Indexed, Excess, Distinct;
    if s.chans[c].HasTxData() {
      var (ch, tx) := NextTxData(s.chans[c]);
      var id := IdOf(tx.frames);
      NextTxDataKeeps(s.chans[c]);
      NextTxNames(s.chans[c]);
      UpdateKeeps(s, c, ch, s.txs[id := c]);
      IndexedInsert(s, c, ch, id);
      SettingsKeep(s.(chans := s.chans[c := ch], txs := s.txs[id := c]), Max(s.l1OriginLast, ch.builder.latestL1), s.cfg);
    }
  }

  /** An indexed transaction carries the id of the channel it maps to. */
  lemma IndexedNames<C>(s: Mgr<C>, id: TxId)
    requires Shape(s) && Indexed(s) && id in s.txs
    ensures id != [] && id[0].chan == s.chans[s.txs[id]].builder.id
  {
    assert ChanInv(s.chans[s.txs[id]]);
    assert NamesFrames(s.chans[s.txs[id]].builder, id);
  }

  // ---------------------------------------------------------------- what building cannot repair

  lemma {:induction false} OutputAllBlocks(b: Builder, datas: seq<Bytes>)
    ensures OutputAll(b, datas).blocks == b.blocks
    decreases |datas|
  {
    if datas != [] {
      OutputAllBlocks(b, datas[..|datas| - 1]);
    }
  }

  lemma FinishedConserves<C>(s: Mgr<C>, l1Head: nat, script: FrameScript)
    requires Shape(s) && s.current.Some?
    ensures Finished(s, l1Head, script).WellFormed()
    ensures Conserved(Finished(s, l1Head, script)) <==> Conserved(s)
  {
    hide Shape, Chained, Held;
    ShapeWellFormed(s);
    var b := CheckTimeout(CurrentBuilder(s), l1Head);
    OutputAllBlocks(b.(closed := b.closed || b.IsFull()), script.frames);
    GrowCurrent(s, OutputFrames(b, script).0, []);
    assert Held(s.chans, s.queue) + [] == Held(s.chans, s.queue);
  }

  lemma EnsureConserves<C>(s: Mgr<C>, env: Env<C>)
    requires Shape(s) && EnvOk(s, env) && (HasSpace(s) || env.newborn.Some?)
    ensures var s' := EnsureChannelWithSpace(s, env); Shape(s') && s'.current.Some? && (Conserved(s') <==> Conserved(s))
  {
    hide Shape, Chained, Held, EnvOk;
    ShapeWellFormed(s);
    if !HasSpace(s) {
      EnsureShape(s, env);
    }
  }

  /** Whatever a call builds, a broken chain stays broken. */
  lemma GetReadyConserves<C>(s: Mgr<C>, l1Head: nat, env: Env<C>)
    requires Shape(s) && EnvOk(s, env)
    ensures Conserved(GetReadyChannel(s, l1Head, env).0) <==> Conserved(s)
  {
    hide Shape, Conserved, EnvOk, ProcessBlocks, OutputFrames, CheckTimeout, Finished, SetBuilder, EnsureChannelWithSpace;
    ShapeWellFormed(s);
    if FirstWithTxData(s.chans, s.queue).None? && s.cursor < |s.blocks| && (HasSpace(s) || env.newborn.Some?) {
      EnsureConserves(s, env);
      var s0 := EnsureChannelWithSpace(s, env);
      ShapeWellFormed(s0);
      ProcessAppends(s0, env.answers);
      ProcessConserves(s0, env.answers);
      var (s1, ok) := ProcessBlocks(s0, env.answers);
      if ok {
        FinishedConserves(s1, l1Head, env.script);
        FinishedIsTwoUpdates(s1, l1Head, env.script);
      }
    }
  }

  lemma SendFromConserves<C>(s: Mgr<C>, r: Ready<C>)
    requires s.WellFormed() && (r.Ready? ==> r.channel in s.chans)
    ensures SendFrom(s, r).0.WellFormed() && (Conserved(SendFrom(s, r).0) <==> Conserved(s))
  {
    hide Chained, Held;
    HeldSame(s.chans, SendFrom(s, r).0.chans, s.queue);
  }
}
