/**
 The builder and the channel as the objects they are, updated in place. Each
 method takes its object's value to the one its specification function gives.
 */
module ChannelObjects {
  import opened BatcherTypes
  import Spec = ChannelBuilders
  import opened ChannelBuilders
  import ChanSpec = Channels
  import opened Channels

  class ChannelBuilder {
    const cfg: Config
    const id: ChannelId
    var timeout: nat
    var timeoutReason: Reason
    var fullErr: Option<Reason>
    var blocks: seq<Block>
    var latestL1: nat
    var latestL2: nat
    var frames: seq<Frame>
    var frameCursor: nat
    var closed: bool

    ghost function View(): Builder
      reads this
    {
      Builder(cfg, id, timeout, timeoutReason, fullErr, blocks, latestL1, latestL2, frames, frameCursor, closed)
    }

    constructor (cfg: Config, id: ChannelId, l1Origin: nat)
      ensures View() == NewBuilder(cfg, id, l1Origin)
    {
      this.cfg, this.id := cfg, id;
      timeout, timeoutReason, fullErr := 0, Unset, None;
      blocks, latestL1, latestL2 := [], 0, 0;
      frames, frameCursor, closed := [], 0, false;
      new;
      if cfg.maxChannelDuration != 0 {
        UpdateTimeout(DurationConstraint(cfg, l1Origin), MaxDurationReached);
      }
    }

    method UpdateTimeout(t: nat, reason: Reason)
      modifies this
      ensures View() == Spec.UpdateTimeout(old(View()), t, reason)
    {
      if timeout == 0 || timeout > t {
        timeout := t;
        timeoutReason := reason;
      }
    }

    method AddBlock(block: Block, answer: AddResult) returns (status: AddStatus)
      modifies this
      ensures (View(), status) == Spec.AddBlock(old(View()), block, answer)
    {
      if fullErr.Some? {
        return AddFull;
      }
      match answer
      case Refused(reason) =>
        fullErr := Some(reason);
        return AddFull;
      case Broken =>
        return AddError;
      case Added(nowFull) =>
        blocks := blocks + [block];
        UpdateTimeout(WindowConstraint(cfg, block.l1Origin), SeqWindowClose);
        if block.l1Origin > latestL1 {
          latestL1 := block.l1Origin;
        }
        if block.number > latestL2 {
          latestL2 := block.number;
        }
        if nowFull.Some? {
          fullErr := nowFull;
        }
        return AddOk;
    }

    method FramePublished(l1: nat)
      modifies this
      ensures View() == Spec.FramePublished(old(View()), l1)
    {
      UpdateTimeout(InclusionConstraint(cfg, l1), ChannelTimeoutClose);
    }

    method CheckTimeout(l1: nat)
      modifies this
      ensures View() == Spec.CheckTimeout(old(View()), l1)
    {
      if fullErr.None? && timeout != 0 && l1 >= timeout {
        fullErr := Some(timeoutReason);
      }
    }

    method OutputFrame(data: Bytes)
      modifies this
      ensures View() == Spec.OutputFrame(old(View()), data)
    {
      var number := |frames| % MAX_FRAMES;
      if number == MAX_FRAMES - 1 {
        fullErr := Some(MaxFrameIndex);
      }
      frames := frames + [Frame(FrameId(id, number), data)];
    }

    /** The pipeline's frames are pulled one at a time until it has no more. */
    method OutputFrames(script: FrameScript) returns (ok: bool)
      modifies this
      ensures (View(), ok) == Spec.OutputFrames(old(View()), script)
    {
      if fullErr.Some? {
        if closed {
          return false;
        }
        closed := true;
      }
      ghost var start := View();
      for i := 0 to |script.frames|
        invariant View() == OutputAll(start, script.frames[..i])
      {
        OutputFrame(script.frames[i]);
        assert script.frames[..i + 1][..i] == script.frames[..i];
      }
      assert script.frames[..|script.frames|] == script.frames;
      ok := !script.fails;
    }

    method NextFrame() returns (f: Frame)
      requires frameCursor < |frames|
      modifies this
      ensures f == old(frames[frameCursor])
      ensures View() == old(View()).(frameCursor := old(frameCursor) + 1)
    {
      f := frames[frameCursor];
      frameCursor := frameCursor + 1;
    }

    method RewindFrameCursor(f: Frame)
      requires CanRewind(View(), f)
      modifies this
      ensures View() == Spec.RewindFrameCursor(old(View()), f)
    {
      if frameCursor > f.id.number {
        frameCursor := f.id.number;
      }
    }
  }

  class Channel {
    const builder: ChannelBuilder
    var pending: map<TxId, TxData>
    var confirmed: map<TxId, nat>
    var minInclusion: nat
    var maxInclusion: nat

    ghost function View(): Chan
      reads this, builder
    {
      Chan(builder.View(), pending, confirmed, minInclusion, maxInclusion)
    }

    constructor (cfg: Config, id: ChannelId, l1Origin: nat)
      ensures View() == NewChan(cfg, id, l1Origin)
      ensures fresh(builder)
    {
      builder := new ChannelBuilder(cfg, id, l1Origin);
      pending, confirmed := map[], map[];
      minInclusion, maxInclusion := UINT64_RANGE - 1, 0;
    }

    predicate HasTxData()
      reads this, builder
      ensures HasTxData() == View().HasTxData()
    {
      var left := |builder.frames| - builder.frameCursor;
      if builder.fullErr.Some? || !builder.cfg.useBlobs then left > 0 else left >= builder.cfg.MaxFramesPerTx()
    }

    /** Frames are taken one by one, up to the number a transaction carries. */
    method NextTxData() returns (tx: TxData)
      requires builder.frameCursor <= |builder.frames|
      modifies this, builder
      ensures (View(), tx) == ChanSpec.NextTxData(old(View()))
    {
      var taken: seq<Frame> := [];
      ghost var start := builder.frameCursor;
      var i := 0;
      while i < builder.cfg.MaxFramesPerTx() && builder.frameCursor < |builder.frames|
        invariant i <= builder.cfg.MaxFramesPerTx() && start + i <= |builder.frames|
        invariant builder.View() == old(builder.View()).(frameCursor := start + i)
        invariant taken == builder.frames[start..start + i]
        invariant pending == old(pending) && confirmed == old(confirmed)
        invariant minInclusion == old(minInclusion) && maxInclusion == old(maxInclusion)
      {
        var f := builder.NextFrame();
        taken := taken + [f];
        i := i + 1;
      }
      tx := TxData(taken, builder.cfg.useBlobs);
      pending := pending[IdOf(taken) := tx];
    }

    /** The failed transaction's frames, and those after them, are sent again. */
    method TxFailed(id: TxId)
      requires CanFail(View(), id)
      modifies this, builder
      ensures View() == ChanSpec.TxFailed(old(View()), id)
    {
      if id in pending {
        builder.RewindFrameCursor(pending[id].frames[0]);
        pending := pending - {id};
      }
    }

    method TxConfirmed(id: TxId, l1: nat) returns (timedOut: bool)
      modifies this, builder
      ensures (View(), timedOut) == ChanSpec.TxConfirmed(old(View()), id, l1)
    {
      if id !in pending {
        return false;
      }
      pending := pending - {id};
      confirmed := confirmed[id := l1];
      builder.FramePublished(l1);
      minInclusion := Min(minInclusion, l1);
      maxInclusion := Max(maxInclusion, l1);
      timedOut := |confirmed| > 0 && Wrap64(maxInclusion - minInclusion) >= builder.cfg.channelTimeout;
    }
  }
}
