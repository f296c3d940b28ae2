/**
 The part of the driver that keeps the channel manager in step with the
 sequencer.
 */
module DriverObject {
  import opened BatcherTypes
  import opened ChannelBuilders
  import opened ManagerObject
  import opened SyncActions
  import Sync = ManagerSync

  class BatchSubmitter {
    const channelMgr: ChannelManager
    var prevCurrentL1: L1Ref

    constructor (channelMgr: ChannelManager)
      ensures this.channelMgr == channelMgr && prevCurrentL1 == EMPTY_L1
    {
      this.channelMgr := channelMgr;
      prevCurrentL1 := EMPTY_L1;
    }

    /** What the queued channels report about themselves, oldest first. */
    method Statuses() returns (r: seq<ChannelStatus>)
      requires channelMgr.Valid()
      ensures r == Sync.Statuses(channelMgr.View())
    {
      r := [];
      var queue := channelMgr.channelQueue;
      for i := 0 to |queue|
        invariant |r| == i && forall j :: 0 <= j < i ==> r[j] == Sync.StatusOf(channelMgr.chans[queue[j]])
      {
        var c := queue[i];
        channelMgr.MirrorOf(c);
        var full, pendingFrames := c.builder.fullErr.Some?, |c.builder.frames| - c.builder.frameCursor;
        var timedOut := |c.confirmed| > 0 && Wrap64(c.maxInclusion - c.minInclusion) >= c.builder.cfg.channelTimeout;
        r := r + [ChannelStatus(full && |c.pending| + pendingFrames == 0, timedOut, c.builder.latestL2, c.maxInclusion)];
      }
    }

    /** One tick: nothing while the sequencer is out of sync, else clear or prune. Pruning never panics. */
    method SyncAndPrune(status: SyncStatus, preferLocalSafe: bool) returns (toLoad: Option<Range>)
      requires channelMgr.Valid()
      modifies this, channelMgr
      ensures channelMgr.Valid()
      ensures Some(channelMgr.View()) == Sync.SyncAndPrune(old(channelMgr.View()), status, old(prevCurrentL1), preferLocalSafe)
      ensures toLoad == Sync.ActionsFor(old(channelMgr.View()), status, old(prevCurrentL1), preferLocalSafe).0.blocksToLoad
      ensures prevCurrentL1 == if OutOfSync(status, old(prevCurrentL1)) then old(prevCurrentL1) else status.currentL1
    {
      hide ComputeSyncActions;
      Sync.HappyActions(channelMgr.View(), status, prevCurrentL1, preferLocalSafe);
      Sync.InSync(channelMgr.View(), status, prevCurrentL1, preferLocalSafe);
      var statuses := Statuses();
      var (a, outOfSync) := ComputeSyncActions(status, prevCurrentL1, channelMgr.blocks, statuses, preferLocalSafe);
      toLoad := a.blocksToLoad;
      if outOfSync {
        return;
      }
      prevCurrentL1 := status.currentL1;
      if a.clearState.Some? {
        channelMgr.Clear(a.clearState.value);
      } else {
        channelMgr.PruneSafeBlocks(a.blocksToPrune);
        channelMgr.PruneChannels(a.channelsToPrune);
      }
    }
  }
}
