/**
 One sync tick applied to the channel manager: pruning follows the safe head
 without losing an unsafe block or a channel that holds one.
 */
module ManagerSync {
  import opened BatcherTypes
  import opened ChannelBuilders
  import opened Channels
  import opened ManagerState
  import opened ManagerInvariant
  import opened ManagerInvalidate
  import ManagerSteps
  import opened Chains
  import opened SyncActions

  function StatusOf(c: Chan): ChannelStatus {
    ChannelStatus(c.IsFullySubmitted(), c.IsTimedOut(), c.builder.latestL2, c.maxInclusion)
  }

  function Statuses<C(==)>(s: Mgr<C>): (r: seq<ChannelStatus>)
    requires s.WellFormed()
  {
    seq(|s.queue|, i requires 0 <= i < |s.queue| => StatusOf(s.chans[s.queue[i]]))
  }

  function ActionsFor<C(==)>(s: Mgr<C>, status: SyncStatus, prevL1: L1Ref, preferLocalSafe: bool): (Actions, bool)
    requires s.WellFormed()
  {
    ComputeSyncActions(status, prevL1, s.blocks, Statuses(s), preferLocalSafe)
  }

  function Prune<C(==)>(s: Mgr<C>, blocks: nat, channels: nat): Option<Mgr<C>> {
    var s1 := PruneSafeBlocks(s, blocks);
    if s1.None? then None else PruneChannels(s1.value, channels)
  }

  /** `None` is a panic: pruning more than there is. */
  function SyncAndPrune<C(==)>(s: Mgr<C>, status: SyncStatus, prevL1: L1Ref, preferLocalSafe: bool): Option<Mgr<C>>
    requires s.WellFormed()
  {
    var (a, outOfSync) := ActionsFor(s, status, prevL1, preferLocalSafe);
    if outOfSync then Some(s)
    else if a.clearState.Some? then Some(Clear(s, a.clearState.value))
    else Prune(s, a.blocksToPrune, a.channelsToPrune)
  }

  lemma OwnConsecutive<C>(s: Mgr<C>, k: nat)
    requires s.WellFormed() && Conserved(s) && k < |s.queue|
    ensures Consecutive(s.chans[s.queue[k]].builder.blocks)
  {
    hide Chained, Held;
    var held := Held(s.chans, s.queue);
    var own := s.chans[s.queue[k]].builder.blocks;
    ChainedNumbers(held, s.blocks, s.cursor);
    HeldAt(s, k);
    ConsecutiveSuffix(held, Offset(s, k));
    assert held[Offset(s, k)..] == own + Held(s.chans, s.queue[k + 1..]);
    ConsecutivePrefix(own, Held(s.chans, s.queue[k + 1..]));
  }

  lemma LatestOf(b: Builder)
    requires BuilderInv(b) && Consecutive(b.blocks)
    ensures b.blocks == [] ==> b.latestL2 == 0
    ensures b.blocks != [] ==> b.latestL2 == Last(b.blocks).number
    ensures forall j :: 0 <= j < |b.blocks| ==> b.blocks[j].number <= b.latestL2
  {
  }

  /** A queued channel's recorded newest block is the number of its last block, and no block of it is above that. */
  lemma LatestIsLast<C>(s: Mgr<C>, k: nat)
    requires Shape(s) && Conserved(s) && k < |s.queue|
    ensures var b := s.chans[s.queue[k]].builder;
      && (b.blocks == [] ==> b.latestL2 == 0)
      && (b.blocks != [] ==> b.latestL2 == Last(b.blocks).number)
      && (forall j :: 0 <= j < |b.blocks| ==> b.blocks[j].number <= b.latestL2)
  {
    hide Conserved, Distinct, PendingNamed, ConfirmedNamed, CursorCovered, BuilderInv, Consecutive;
    OwnConsecutive(s, k);
    assert ChanInv(s.chans[s.queue[k]]);
    LatestOf(s.chans[s.queue[k]].builder);
  }

  /** The channels a tick prunes, for a safe head at `safe`. */
  ghost predicate PrunesSafe<C>(s: Mgr<C>, safe: nat, m: nat)
    requires s.WellFormed()
  {
    && m <= |s.queue|
    && (forall k :: 0 <= k < m ==> s.chans[s.queue[k]].builder.latestL2 <= safe)
    && (m < |s.queue| ==> safe < s.chans[s.queue[m]].builder.latestL2)
  }

  /** Pruned channels hold safe blocks only: every channel holding an unsafe block is kept. */
  lemma UnsafeChannelsKept<C>(s: Mgr<C>, safe: nat, m: nat, k: nat, j: nat, b: Block)
    requires Shape(s) && Conserved(s) && PrunesSafe(s, safe, m) && Holds(s, k, j, b) && safe < b.number
    ensures m <= k
  {
    hide ChanInv, Conserved;
    LatestIsLast(s, k);
  }

  /** Of the channels kept, each that has blocks ends above the safe head. */
  lemma KeptChannelsUnsafe<C>(s: Mgr<C>, safe: nat, m: nat, k: nat)
    requires Shape(s) && Conserved(s) && PrunesSafe(s, safe, m) && m <= k < |s.queue|
    requires s.chans[s.queue[k]].builder.blocks != []
    ensures safe < Last(s.chans[s.queue[k]].builder.blocks).number
  {
    hide ChanInv, Chained, Held;
    var held := Held(s.chans, s.queue);
    LatestIsLast(s, m);
    LatestIsLast(s, k);
    if m < k {
      var first, own := s.chans[s.queue[m]].builder.blocks, s.chans[s.queue[k]].builder.blocks;
      HoldsAt(s, m, |first| - 1, Last(first));
      HoldsAt(s, k, |own| - 1, Last(own));
      OffsetMonotone(s, m + 1, k);
      ChainedNumbers(held, s.blocks, s.cursor);
    }
  }

  /** The blocks of the pruned channels are safe, so those blocks' share of what is held ends at the safe head. */
  lemma PrunedAreSafe<C>(s: Mgr<C>, safe: nat, m: nat)
    requires Shape(s) && Conserved(s) && PrunesSafe(s, safe, m) && 0 < Offset(s, m)
    ensures Held(s.chans, s.queue[..m])[Offset(s, m) - 1].number <= safe
  {
    hide ChanInv, Conserved, Held, Distinct;
    var k, j := OwnerOf(s, m, Offset(s, m) - 1);
    LatestIsLast(s, k);
  }

  lemma PruneConserves<C>(s: Mgr<C>, safe: nat, m: nat)
    requires Shape(s) && Conserved(s) && SafeInRange(s, safe) && PrunesSafe(s, safe, m)
    ensures var n := safe + 1 - s.blocks[0].number;
      && m <= |s.queue|
      && Chained(Held(s.chans, s.queue[m..]), s.blocks[n..], if s.cursor < n then 0 else s.cursor - n)
  {
    hide ChanInv, Chained, Held, Distinct;
    var n := safe + 1 - s.blocks[0].number;
    var held := Held(s.chans, s.queue);
    if s.cursor < n {
      NothingHeldAbove(s, safe, m);
      ChainedPruneAll(held, s.blocks, s.cursor, n);
    } else {
      HeldSplit(s, m);
      if 0 < Offset(s, m) {
        PrunedAreSafe(s, safe, m);
      }
      ChainedPrune(held, s.blocks, s.cursor, n, Offset(s, m));
      assert held[Offset(s, m)..] == Held(s.chans, s.queue[m..]);
    }
  }

  /** A safe head past the cursor makes every channel prunable. */
  lemma NothingHeldAbove<C>(s: Mgr<C>, safe: nat, m: nat)
    requires Shape(s) && Conserved(s) && s.blocks != [] && PrunesSafe(s, safe, m)
    requires s.blocks[0].number + s.cursor <= safe
    ensures m == |s.queue| && Held(s.chans, s.queue[m..]) == []
  {
    hide ChanInv, Chained;
    if m < |s.queue| {
      LatestIsLast(s, m);
      var own := s.chans[s.queue[m]].builder.blocks;
      HoldsAt(s, m, |own| - 1, Last(own));
      ChainedNumbers(Held(s.chans, s.queue), s.blocks, s.cursor);
      assert false;
    }
  }

  /** The safe head is at a block of the queue, or right before it. */
  ghost predicate SafeInRange<C>(s: Mgr<C>, safe: nat) {
    s.blocks != [] && s.blocks[0].number <= safe + 1 <= s.blocks[0].number + |s.blocks|
  }

  lemma PruneRetains<C>(s: Mgr<C>, safe: nat, m: nat, k: nat)
    requires Shape(s) && Conserved(s) && SafeInRange(s, safe) && PrunesSafe(s, safe, m) && m <= k < |s.queue|
    requires s.chans[s.queue[k]].builder.blocks != []
    ensures var n := safe + 1 - s.blocks[0].number;
      n < |s.blocks| && s.blocks[n].number == safe + 1 <= Last(s.chans[s.queue[k]].builder.blocks).number
  {
    hide ChanInv, Chained, Held;
    KeptChannelsUnsafe(s, safe, m, k);
    var own := s.chans[s.queue[k]].builder.blocks;
    HoldsAt(s, k, |own| - 1, Last(own));
    ChainedNumbers(Held(s.chans, s.queue), s.blocks, s.cursor);
  }

  lemma PruneShape<C>(s: Mgr<C>, n: nat, m: nat)
    requires Shape(s) && n <= |s.blocks| && m <= |s.queue|
    ensures Prune(s, n, m).Some? && Shape(Prune(s, n, m).value)
  {
    hide ChanInv;
  }

  /** Channels that leave the queue hold blocks below the new frontier only. */
  lemma PruneStale<C>(s: Mgr<C>, safe: nat, m: nat, c: C, b: Block)
    requires Shape(s) && Conserved(s) && SafeInRange(s, safe) && PrunesSafe(s, safe, m)
    requires c in s.queue && c !in s.queue[m..] && b in s.chans[c].builder.blocks
    ensures b.number <= safe
  {
    hide ChanInv, Chained, Held;
    forall i | m <= i < |s.queue|
      ensures s.queue[i] in s.queue[m..]
    {
      assert s.queue[m..][i - m] == s.queue[i];
    }
    var k :| 0 <= k < |s.queue| && s.queue[k] == c;
    LatestIsLast(s, k);
  }

  lemma PruneFrontier<C>(s: Mgr<C>, safe: nat, m: nat)
    requires Shape(s) && Conserved(s) && TipOk(s) && SafeInRange(s, safe) && m <= |s.queue|
    ensures var s' := Prune(s, safe + 1 - s.blocks[0].number, m).value;
      TipOk(s') && Frontier(s') == safe + 1 && Frontier(s) <= safe + 1
  {
    hide ChanInv, Chained, Held;
    ChainedNumbers(Held(s.chans, s.queue), s.blocks, s.cursor);
  }

  lemma PruneAllRetained<C>(s: Mgr<C>, safe: nat, m: nat)
    requires Shape(s) && Conserved(s) && SafeInRange(s, safe) && PrunesSafe(s, safe, m)
    ensures var s' := Prune(s, safe + 1 - s.blocks[0].number, m).value; s'.WellFormed() && Retained(s')
  {
    hide ChanInv, Conserved, Distinct, PrunesSafe;
    var n := safe + 1 - s.blocks[0].number;
    PruneCounted(s, n, m, safe);
    var s' := Prune(s, n, m).value;
    forall c | c in s'.queue && s.chans[c].builder.blocks != []
      ensures s'.blocks != [] && s'.blocks[0].number <= Last(s.chans[c].builder.blocks).number
    {
      var i :| 0 <= i < |s'.queue| && s'.queue[i] == c;
      PruneRetains(s, safe, m, m + i);
    }
  }

  lemma PruneCounted<C>(s: Mgr<C>, n: nat, m: nat, safe: nat)
    requires s.WellFormed() && PrunesSafe(s, safe, m) && n <= |s.blocks|
    ensures m <= |s.queue| && Prune(s, n, m).Some? && Prune(s, n, m).value.WellFormed()
  {
  }

  lemma PruneAllStale<C>(s: Mgr<C>, safe: nat, m: nat)
    requires Shape(s) && Conserved(s) && TipOk(s) && StaleBelow(s) && SafeInRange(s, safe) && PrunesSafe(s, safe, m)
    ensures var s' := Prune(s, safe + 1 - s.blocks[0].number, m).value; s'.WellFormed() && StaleBelow(s')
  {
    hide ChanInv, Conserved, Distinct, PrunesSafe, TipOk;
    var n := safe + 1 - s.blocks[0].number;
    PruneCounted(s, n, m, safe);
    PruneFrontier(s, safe, m);
    var s' := Prune(s, n, m).value;
    forall t, b | t in s.txs && s.txs[t] !in s'.queue && b in s.chans[s.txs[t]].builder.blocks
      ensures b.number < Frontier(s')
    {
      if s.txs[t] in s.queue {
        PruneStale(s, safe, m, s.txs[t], b);
      }
    }
  }

  lemma PruneIndexed<C>(s: Mgr<C>, n: nat, m: nat)
    requires s.WellFormed() && Indexed(s) && n <= |s.blocks| && m <= |s.queue|
    ensures Prune(s, n, m).value.WellFormed() && Indexed(Prune(s, n, m).value)
  {
  }

  lemma PruneKeeps<C>(s: Mgr<C>, safe: nat, m: nat)
    requires MgrInv(s) && SafeInRange(s, safe) && PrunesSafe(s, safe, m)
    ensures var r := Prune(s, safe + 1 - s.blocks[0].number, m); r.Some? && MgrInv(r.value)
  {
    hide ChanInv, Chained, Held, Distinct, TipOk, Retained, StaleBelow, Indexed, Shape;
    assert s.WellFormed() by { ShapeWellFormed(s); }
    var n := safe + 1 - s.blocks[0].number;
    PruneCounted(s, n, m, safe);
    PruneShape(s, n, m);
    PruneConserves(s, safe, m);
    PruneFrontier(s, safe, m);
    PruneAllRetained(s, safe, m);
    PruneAllStale(s, safe, m);
    PruneIndexed(s, n, m);
  }

  /** Pruning blocks that were never put in a channel leaves them counted as pending. */
  lemma PruneCounts<C>(s: Mgr<C>, n: nat, m: nat)
    requires s.WellFormed() && n <= |s.blocks| && m <= |s.queue|
    ensures var s' := Prune(s, n, m).value;
      s'.WellFormed() && Excess(s') == Excess(s) + (if s.cursor < n then DaSum(s.blocks[s.cursor..n]) else 0)
  {
    if s.cursor < n {
      assert s.blocks[s.cursor..] == s.blocks[s.cursor..n] + s.blocks[n..];
      DaSumConcat(s.blocks[s.cursor..n], s.blocks[n..]);
      assert s.blocks[n..][0..] == s.blocks[n..];
    } else {
      assert s.blocks[n..][s.cursor - n..] == s.blocks[s.cursor..];
    }
  }

  // ---------------------------------------------------------------- the tick

  /** What a tick adds to the excess of the pending-bytes counter. */
  ghost function Forgotten<C>(s: Mgr<C>, a: Actions): nat
    requires s.WellFormed() && a.blocksToPrune <= |s.blocks|
  {
    if s.cursor < a.blocksToPrune then DaSum(s.blocks[s.cursor..a.blocksToPrune]) else 0
  }

  lemma HappyActions<C>(s: Mgr<C>, status: SyncStatus, prevL1: L1Ref, preferLocalSafe: bool)
    requires s.WellFormed()
    ensures var (a, outOfSync) := ActionsFor(s, status, prevL1, preferLocalSafe);
      var safe := SafeHead(status, preferLocalSafe).number;
      && a.blocksToPrune <= |s.blocks| && a.channelsToPrune <= |s.queue|
      && (!outOfSync && a.clearState.None? && s.blocks != [] ==>
            && SafeInRange(s, safe) && a.blocksToPrune == safe + 1 - s.blocks[0].number
            && PrunesSafe(s, safe, a.channelsToPrune))
      && (outOfSync ==> a.clearState.None?)
      && (s.blocks == [] || outOfSync ==> a.blocksToPrune == 0 && a.channelsToPrune == 0)
  {
    var st := Statuses(s);
    assert forall i :: 0 <= i < |s.queue| ==> st[i].latestL2 == s.chans[s.queue[i]].builder.latestL2;
  }

  lemma PruneNothing<C>(s: Mgr<C>)
    ensures Prune(s, 0, 0) == Some(s)
  {
    assert s.queue[0..] == s.queue && s.blocks[0..] == s.blocks;
  }

  /** A tick never panics and keeps the invariant; the counter stays exact unless blocks past the cursor turn safe. */
  lemma SyncKeeps<C>(s: Mgr<C>, status: SyncStatus, prevL1: L1Ref, preferLocalSafe: bool)
    requires MgrInv(s)
    ensures var r := SyncAndPrune(s, status, prevL1, preferLocalSafe);
      var (a, outOfSync) := ActionsFor(s, status, prevL1, preferLocalSafe);
      && a.blocksToPrune <= |s.blocks|
      && r.Some? && MgrInv(r.value)
      && Excess(r.value) == (if a.clearState.Some? then 0 else Excess(s) + Forgotten(s, a))
  {
    hide Shape, Conserved, Retained, Indexed, StaleBelow, TipOk, PrunesSafe, SafeInRange, Excess, ComputeSyncActions, Prune, DaSum;
    ShapeWellFormed(s);
    HappyActions(s, status, prevL1, preferLocalSafe);
    var (a, outOfSync) := ActionsFor(s, status, prevL1, preferLocalSafe);
    if outOfSync {
    } else if a.clearState.Some? {
      ManagerSteps.ClearKeeps(s, a.clearState.value);
    } else {
      PruneCounts(s, a.blocksToPrune, a.channelsToPrune);
      if s.blocks == [] {
        PruneNothing(s);
      } else {
        PruneKeeps(s, SafeHead(status, preferLocalSafe).number, a.channelsToPrune);
      }
    }
  }

  /** After a tick, and once the blocks it asks for are loaded, the queue holds exactly the unsafe block numbers. */
  lemma TickLeavesUnsafeBlocks<C>(s: Mgr<C>, status: SyncStatus, prevL1: L1Ref, preferLocalSafe: bool, loaded: seq<Block>)
    requires MgrInv(s) && !OutOfSync(status, prevL1)
    requires Loads(loaded, ActionsFor(s, status, prevL1, preferLocalSafe).0.blocksToLoad)
    ensures var r := SyncAndPrune(s, status, prevL1, preferLocalSafe);
      var safe := SafeHead(status, preferLocalSafe).number;
      && r.Some?
      && (var newest := if r.value.blocks == [] then safe else Last(r.value.blocks).number;
          var after := r.value.blocks + loaded;
          && |after| == Max(status.unsafeL2.number, newest) - safe
          && forall i :: 0 <= i < |after| ==> after[i].number == safe + 1 + i)
  {
    hide Shape, Conserved, Retained, Indexed, StaleBelow, TipOk, ComputeSyncActions, Loads, Excess;
    ShapeWellFormed(s);
    ConservedConsecutive(s);
    SyncKeeps(s, status, prevL1, preferLocalSafe);
    SyncTickExact(status, prevL1, s.blocks, Statuses(s), preferLocalSafe, loaded);
    InSync(s, status, prevL1, preferLocalSafe);
  }

  lemma InSync<C>(s: Mgr<C>, status: SyncStatus, prevL1: L1Ref, preferLocalSafe: bool)
    requires s.WellFormed()
    ensures ActionsFor(s, status, prevL1, preferLocalSafe).1 == OutOfSync(status, prevL1)
  {
  }

  // ---------------------------------------------------------------- when a tick clears

  /** Sent in full, its last inclusion read by the node within the channel timeout, and its last block still not safe. */
  ghost predicate PassedBy(c: Chan, currentL1: nat, safe: nat) {
    && c.builder.fullErr.Some? && c.builder.frameCursor == |c.builder.frames| && (forall id: TxId :: id !in c.pending)
    && !c.IsTimedOut() && c.maxInclusion < currentL1
    && c.builder.blocks != [] && safe < Last(c.builder.blocks).number
  }

  lemma StatusPassedBy<C>(s: Mgr<C>, k: nat, currentL1: nat, safe: L2Ref)
    requires Shape(s) && Conserved(s) && k < |s.queue|
    ensures var st := StatusOf(s.chans[s.queue[k]]);
      st.fullySubmitted && !st.timedOut && st.maxInclusion < currentL1 && safe.number < st.latestL2
      <==> PassedBy(s.chans[s.queue[k]], currentL1, safe.number)
  {
    hide Conserved, Distinct, ChanInv;
    LatestIsLast(s, k);
    FullySubmittedExact(s.chans[s.queue[k]]);
  }

  lemma UnheededChannel<C>(s: Mgr<C>, currentL1: nat, safe: L2Ref)
    requires Shape(s) && Conserved(s)
    ensures Unheeded(Statuses(s), currentL1, safe) <==> exists c :: c in s.queue && PassedBy(s.chans[c], currentL1, safe.number)
  {
    hide Conserved, Shape, PassedBy, StatusOf;
    ShapeWellFormed(s);
    var st := Statuses(s);
    forall k: nat | k < |s.queue|
      ensures st[k] == StatusOf(s.chans[s.queue[k]])
      ensures st[k].fullySubmitted && !st[k].timedOut && st[k].maxInclusion < currentL1 && safe.number < st[k].latestL2
        <==> PassedBy(s.chans[s.queue[k]], currentL1, safe.number)
    {
      StatusPassedBy(s, k, currentL1, safe);
    }
    if c :| c in s.queue && PassedBy(s.chans[c], currentL1, safe.number) {
      var k :| 0 <= k < |s.queue| && s.queue[k] == c;
      assert st[k].fullySubmitted;
    }
  }

  /**
   A tick starts afresh, in sync and with blocks queued, exactly when the safe head is off the queue, is on another chain
   than the queue, or has passed by a queued channel that was fully submitted.
   */
  lemma TickClearsExact<C>(s: Mgr<C>, status: SyncStatus, prevL1: L1Ref, preferLocalSafe: bool)
    requires MgrInv(s) && !OutOfSync(status, prevL1) && s.blocks != []
    ensures var safe := if preferLocalSafe then status.localSafeL2 else status.safeL2;
      var (a, outOfSync) := ActionsFor(s, status, prevL1, preferLocalSafe);
      && !outOfSync
      && (a.clearState.Some? <==>
            || OffQueue(s.blocks, safe) || Replaced(s.blocks, safe)
            || exists c :: c in s.queue && PassedBy(s.chans[c], status.currentL1.number, safe.number))
      && (a.clearState.Some? ==> SyncAndPrune(s, status, prevL1, preferLocalSafe) == Some(Clear(s, safe.l1Origin)))
  {
    hide Shape, Conserved, Retained, Indexed, StaleBelow, TipOk, ComputeSyncActions, OffQueue, Replaced, Unheeded, PassedBy;
    ShapeWellFormed(s);
    ConservedConsecutive(s);
    ClearsExact(status, prevL1, s.blocks, Statuses(s), preferLocalSafe);
    UnheededChannel(s, status.currentL1.number, if preferLocalSafe then status.localSafeL2 else status.safeL2);
  }

  /** A tick that prunes leaves the current channel current unless it was pruned, and all other settings as they are. */
  lemma TickKeepsCurrent<C>(s: Mgr<C>, status: SyncStatus, prevL1: L1Ref, preferLocalSafe: bool)
    requires Shape(s) && ActionsFor(s, status, prevL1, preferLocalSafe).0.clearState.None?
    ensures var r := SyncAndPrune(s, status, prevL1, preferLocalSafe);
      && r.Some?
      && r.value.current == (if s.current.Some? && s.current.value in r.value.queue then s.current else None)
      && r.value.chans == s.chans && r.value.txs == s.txs && r.value.cfg == s.cfg && r.value.l1OriginLast == s.l1OriginLast
      && r.value.tip == s.tip && r.value.tipNumber == s.tipNumber && r.value.pendingDaBytes == s.pendingDaBytes
  {
    hide ComputeSyncActions, ChanInv;
    HappyActions(s, status, prevL1, preferLocalSafe);
    var n := ActionsFor(s, status, prevL1, preferLocalSafe).0.channelsToPrune;
    PruneSplits(s.queue, n);
  }

  lemma PruneSplits<C>(queue: seq<C>, n: nat)
    requires Distinct(queue) && n <= |queue|
    ensures forall c :: c in queue ==> (c in queue[n..] <==> c !in queue[..n])
  {
    forall c | c in queue
      ensures c in queue[n..] <==> c !in queue[..n]
    {
      var i :| 0 <= i < |queue| && queue[i] == c;
      if n <= i {
        assert queue[n..][i - n] == c;
      } else {
        assert queue[..n][i] == c;
      }
    }
  }
}
