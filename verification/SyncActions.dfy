/**
 What the batcher does with its local state on each tick, from the sequencer's
 sync status: clear it, or prune it, and load which blocks.
 */
module SyncActions {
  import opened BatcherTypes
  import opened ChannelBuilders

  datatype L1Ref = L1Ref(hash: Hash, number: nat, parent: Hash, time: nat)

  datatype L2Ref = L2Ref(hash: Hash, number: nat, l1Origin: nat)

  datatype SyncStatus = SyncStatus(headL1: L1Ref, currentL1: L1Ref, safeL2: L2Ref, localSafeL2: L2Ref, unsafeL2: L2Ref)

  datatype ChannelStatus = ChannelStatus(fullySubmitted: bool, timedOut: bool, latestL2: nat, maxInclusion: nat)

  /** Both ends are included. */
  datatype Range = Range(start: nat, end: nat)

  datatype Actions = Actions(clearState: Option<nat>, blocksToPrune: nat, channelsToPrune: nat, blocksToLoad: Option<Range>)

  const NO_ACTIONS := Actions(None, 0, 0, None)

  const EMPTY_L1 := L1Ref(0, 0, 0, 0)

  function SafeHead(status: SyncStatus, preferLocalSafe: bool): L2Ref {
    if preferLocalSafe then status.localSafeL2 else status.safeL2
  }

  predicate OutOfSync(status: SyncStatus, prevL1: L1Ref) {
    status.headL1 == EMPTY_L1 || status.currentL1.number < prevL1.number
  }

  function Above(low: nat, high: nat): Option<Range> {
    if low < high then Some(Range(low + 1, high)) else None
  }

  /** A fully submitted channel has been read by the node, yet the safe head is short of its last block. */
  predicate Stalled(ch: ChannelStatus, currentL1: nat, safe: nat) {
    ch.fullySubmitted && !ch.timedOut && ch.maxInclusion < currentL1 && safe < ch.latestL2
  }

  function LeadingSafe(channels: seq<ChannelStatus>, safe: nat): (n: nat)
    ensures n <= |channels|
    ensures forall i :: 0 <= i < n ==> channels[i].latestL2 <= safe
    ensures n < |channels| ==> safe < channels[n].latestL2
  {
    if channels == [] || safe < channels[0].latestL2 then 0 else 1 + LeadingSafe(channels[1..], safe)
  }

  function ComputeSyncActions(status: SyncStatus, prevL1: L1Ref, blocks: seq<Block>, channels: seq<ChannelStatus>,
                              preferLocalSafe: bool): (Actions, bool)
  {
    var safe := SafeHead(status, preferLocalSafe);
    var afresh := Actions(Some(safe.l1Origin), 0, 0, Above(safe.number, status.unsafeL2.number));
    if OutOfSync(status, prevL1) then (NO_ACTIONS, true)
    else if blocks == [] then (afresh.(clearState := None), false)
    else if safe.number + 1 < blocks[0].number then (afresh, false)
    else
      var n := safe.number + 1 - blocks[0].number;
      if |blocks| < n then (afresh, false)
      else if 0 < n && blocks[n - 1].hash != safe.hash then (afresh, false)
      else if exists ch :: ch in channels && Stalled(ch, status.currentL1.number, safe.number) then (afresh, false)
      else
        (Actions(None, n, LeadingSafe(channels, safe.number), Above(blocks[|blocks| - 1].number, status.unsafeL2.number)), false)
  }

  /** The blocks left in the queue once the actions are taken. */
  function Kept(a: Actions, blocks: seq<Block>): seq<Block>
    requires a.blocksToPrune <= |blocks|
  {
    if a.clearState.Some? then [] else blocks[a.blocksToPrune..]
  }

  /** `loaded` answers a load request: one block per number in the range, in order. */
  ghost predicate Loads(loaded: seq<Block>, range: Option<Range>) {
    if range.None? then loaded == []
    else
      && |loaded| == range.value.end + 1 - range.value.start
      && forall i :: 0 <= i < |loaded| ==> loaded[i].number == range.value.start + i
  }

  /**
   Unless the sequencer is out of sync, one tick leaves exactly the block numbers from just above the safe head
   up to the unsafe head or the newest retained block, whichever is later: no gap, no duplicate.
   */
  lemma SyncTickExact(status: SyncStatus, prevL1: L1Ref, blocks: seq<Block>, channels: seq<ChannelStatus>,
                      preferLocalSafe: bool, loaded: seq<Block>)
    requires Consecutive(blocks)
    requires Loads(loaded, ComputeSyncActions(status, prevL1, blocks, channels, preferLocalSafe).0.blocksToLoad)
    ensures var (a, outOfSync) := ComputeSyncActions(status, prevL1, blocks, channels, preferLocalSafe);
      && a.blocksToPrune <= |blocks| && a.channelsToPrune <= |channels|
      && (outOfSync ==> a == NO_ACTIONS)
      && (!outOfSync ==>
            var safe := SafeHead(status, preferLocalSafe).number;
            var kept := Kept(a, blocks);
            var newest := if kept == [] then safe else kept[|kept| - 1].number;
            var after := kept + loaded;
            && |after| == Max(status.unsafeL2.number, newest) - safe
            && forall i :: 0 <= i < |after| ==> after[i].number == safe + 1 + i)
  {
    var (a, outOfSync) := ComputeSyncActions(status, prevL1, blocks, channels, preferLocalSafe);
    if !outOfSync {
      var safe := SafeHead(status, preferLocalSafe).number;
      var kept := Kept(a, blocks);
      forall i | 0 <= i < |kept|
        ensures kept[i].number == safe + 1 + i
      {
        assert kept[i] == blocks[a.blocksToPrune + i];
      }
    }
  }

  /** The safe head is neither a queued block nor the one right before the queue. */
  ghost predicate OffQueue(blocks: seq<Block>, safe: L2Ref)
    requires blocks != []
  {
    safe.number + 1 < blocks[0].number || blocks[|blocks| - 1].number < safe.number
  }

  /** The queue has another block in the safe head's place. */
  ghost predicate Replaced(blocks: seq<Block>, safe: L2Ref) {
    exists i :: 0 <= i < |blocks| && blocks[i].number == safe.number && blocks[i].hash != safe.hash
  }

  /** Some channel was sent in full and read by the node in time, and yet the safe head did not reach its end. */
  ghost predicate Unheeded(channels: seq<ChannelStatus>, currentL1: nat, safe: L2Ref) {
    exists k :: 0 <= k < |channels| && channels[k].fullySubmitted && !channels[k].timedOut
                && channels[k].maxInclusion < currentL1 && safe.number < channels[k].latestL2
  }

  /**
   When the state is cleared: in sync and with blocks queued, exactly when the safe head is off the queue, is on another
   chain than the queue, or has passed a fully submitted channel by. Then everything above the safe head is loaded anew.
   */
  lemma ClearsExact(status: SyncStatus, prevL1: L1Ref, blocks: seq<Block>, channels: seq<ChannelStatus>, preferLocalSafe: bool)
    requires Consecutive(blocks)
    ensures var (a, outOfSync) := ComputeSyncActions(status, prevL1, blocks, channels, preferLocalSafe);
      var safe := if preferLocalSafe then status.localSafeL2 else status.safeL2;
      && (outOfSync <==> status.headL1 == EMPTY_L1 || status.currentL1.number < prevL1.number)
      && (outOfSync || blocks == [] ==> a.clearState.None?)
      && (!outOfSync && blocks != [] ==>
            (a.clearState.Some? <==> OffQueue(blocks, safe) || Replaced(blocks, safe) || Unheeded(channels, status.currentL1.number, safe)))
      && (a.clearState.Some? ==> a.clearState.value == safe.l1Origin && a.blocksToPrune == 0 && a.channelsToPrune == 0)
  {
    var (a, outOfSync) := ComputeSyncActions(status, prevL1, blocks, channels, preferLocalSafe);
    var safe := SafeHead(status, preferLocalSafe);
    if !outOfSync && blocks != [] && !OffQueue(blocks, safe) {
      var n := safe.number + 1 - blocks[0].number;
      assert Replaced(blocks, safe) <==> 0 < n && blocks[n - 1].hash != safe.hash;
      StalledUnheeded(channels, status.currentL1.number, safe);
    }
  }

  lemma StalledUnheeded(channels: seq<ChannelStatus>, currentL1: nat, safe: L2Ref)
    ensures Unheeded(channels, currentL1, safe) <==> exists ch :: ch in channels && Stalled(ch, currentL1, safe.number)
  {
    if ch :| ch in channels && Stalled(ch, currentL1, safe.number) {
      var k :| 0 <= k < |channels| && channels[k] == ch;
    }
    if Unheeded(channels, currentL1, safe) {
      var k :| 0 <= k < |channels| && channels[k].fullySubmitted && !channels[k].timedOut
               && channels[k].maxInclusion < currentL1 && safe.number < channels[k].latestL2;
      assert channels[k] in channels && Stalled(channels[k], currentL1, safe.number);
    }
  }
}
