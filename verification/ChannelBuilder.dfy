/**
 The channel builder: blocks go in, frames come out. The compression pipeline
 underneath (`ChannelOut`) is not modelled; each of its answers is a parameter.
 */
module ChannelBuilders {
  import opened BatcherTypes

  const UINT64_RANGE: nat := 0x1_0000_0000_0000_0000

  /** Frame numbers are 16 bits wide. */
  const MAX_FRAMES: nat := 0x1_0000

  function Wrap64(x: int): nat {
    x % UINT64_RANGE
  }

  function Max(a: nat, b: nat): nat {
    if a < b then b else a
  }

  function Min(a: nat, b: nat): nat {
    if b < a then b else a
  }

  /** `Unset` is the absent reason. */
  datatype Reason =
    | Unset
    | MaxDurationReached
    | ChannelTimeoutClose
    | SeqWindowClose
    | CompressorFull
    | TooManyRlpBytes
    | MaxFrameIndex

  /** How the compression pipeline answers one `AddBlock`. */
  datatype AddResult =
    | Added(nowFull: Option<Reason>)
    | Refused(reason: Reason)
    | Broken

  datatype AddStatus = AddOk | AddFull | AddError

  /** What the pipeline emits in one `OutputFrames` call, and whether it then fails. */
  datatype FrameScript = FrameScript(frames: seq<Bytes>, fails: bool)

  datatype Builder = Builder(
    cfg: Config,
    id: ChannelId,
    timeout: nat,
    timeoutReason: Reason,
    fullErr: Option<Reason>,
    blocks: seq<Block>,
    latestL1: nat,
    latestL2: nat,
    frames: seq<Frame>,
    frameCursor: nat,
    closed: bool)
  {
    predicate IsFull() {
      fullErr.Some?
    }

    predicate TimedOut(l1: nat) {
      timeout != 0 && timeout <= l1
    }

    predicate HasPendingFrame() {
      frameCursor < |frames|
    }

    function PendingFrames(): int {
      |frames| - frameCursor
    }
  }

  function NewBuilder(cfg: Config, id: ChannelId, l1Origin: nat): Builder {
    UpdateDurationTimeout(Builder(cfg, id, 0, Unset, None, [], 0, 0, [], 0, false), l1Origin)
  }

  function UpdateTimeout(b: Builder, t: nat, reason: Reason): Builder {
    if b.timeout == 0 || t < b.timeout then b.(timeout := t, timeoutReason := reason) else b
  }

  function UpdateDurationTimeout(b: Builder, l1: nat): Builder {
    if b.cfg.maxChannelDuration == 0 then b
    else UpdateTimeout(b, DurationConstraint(b.cfg, l1), MaxDurationReached)
  }

  function DurationConstraint(cfg: Config, l1: nat): nat {
    Wrap64(l1 + cfg.maxChannelDuration)
  }

  function WindowConstraint(cfg: Config, l1Origin: nat): nat {
    Wrap64(l1Origin + cfg.seqWindowSize - cfg.subSafetyMargin)
  }

  function InclusionConstraint(cfg: Config, l1: nat): nat {
    Wrap64(l1 + cfg.channelTimeout - cfg.subSafetyMargin)
  }

  function FramePublished(b: Builder, l1: nat): Builder {
    UpdateTimeout(b, InclusionConstraint(b.cfg, l1), ChannelTimeoutClose)
  }

  function CheckTimeout(b: Builder, l1: nat): Builder {
    if !b.IsFull() && b.TimedOut(l1) then b.(fullErr := Some(b.timeoutReason)) else b
  }

  function AddBlock(b: Builder, block: Block, answer: AddResult): (Builder, AddStatus) {
    if b.IsFull() then (b, AddFull)
    else
      match answer
      case Refused(reason) => (b.(fullErr := Some(reason)), AddFull)
      case Broken => (b, AddError)
      case Added(nowFull) =>
        var b1 := UpdateTimeout(b.(blocks := b.blocks + [block]), WindowConstraint(b.cfg, block.l1Origin), SeqWindowClose);
        var b2 := b1.(latestL1 := Max(b1.latestL1, block.l1Origin), latestL2 := Max(b1.latestL2, block.number));
        (if nowFull.Some? then b2.(fullErr := nowFull) else b2, AddOk)
  }

  function OutputFrame(b: Builder, data: Bytes): Builder {
    var number := |b.frames| % MAX_FRAMES;
    var b1 := if number == MAX_FRAMES - 1 then b.(fullErr := Some(MaxFrameIndex)) else b;
    b1.(frames := b1.frames + [Frame(FrameId(b.id, number), data)])
  }

  function OutputAll(b: Builder, datas: seq<Bytes>): Builder
    decreases |datas|
  {
    if datas == [] then b
    else OutputFrame(OutputAll(b, datas[..|datas| - 1]), datas[|datas| - 1])
  }

  /** A full channel is closed first, and closing twice is an error. */
  function OutputFrames(b: Builder, script: FrameScript): (Builder, bool) {
    if b.IsFull() && b.closed then (b, false)
    else (OutputAll(b.(closed := b.closed || b.IsFull()), script.frames), !script.fails)
  }

  predicate CanRewind(b: Builder, f: Frame) {
    && f.id.number < |b.frames|
    && |b.frames[f.id.number].data| == |f.data|
    && b.frames[f.id.number].id.chan == f.id.chan
  }

  function RewindFrameCursor(b: Builder, f: Frame): Builder
    requires CanRewind(b, f)
  {
    if f.id.number < b.frameCursor then b.(frameCursor := f.id.number) else b
  }

  // ---------------------------------------------------------------- invariant

  /** Frames are numbered by position and the cursor is inside the queue. */
  ghost predicate BuilderInv(b: Builder) {
    && b.cfg.Check()
    && b.frameCursor <= |b.frames| <= MAX_FRAMES
    && (forall i :: 0 <= i < |b.frames| ==> b.frames[i].id == FrameId(b.id, i))
    && (b.blocks == [] ==> b.latestL2 == 0)
    && (b.blocks != [] && Consecutive(b.blocks) ==> b.latestL2 == b.blocks[|b.blocks| - 1].number)
    && NewestOrigin(b.blocks, b.latestL1)
    && (|b.frames| == MAX_FRAMES ==> b.IsFull())
    && (b.closed ==> b.IsFull())
  }

  /** The greatest L1 origin of the blocks, and 0 without blocks. */
  ghost predicate NewestOrigin(blocks: seq<Block>, l1: nat) {
    && (blocks == [] ==> l1 == 0)
    && (blocks != [] ==> exists i :: 0 <= i < |blocks| && blocks[i].l1Origin == l1)
    && (forall i :: 0 <= i < |blocks| ==> blocks[i].l1Origin <= l1)
  }

  lemma NewestOriginGrows(blocks: seq<Block>, l1: nat, block: Block)
    requires NewestOrigin(blocks, l1)
    ensures NewestOrigin(blocks + [block], Max(l1, block.l1Origin))
  {
    var more := blocks + [block];
    assert more[|blocks|] == block;
    if blocks != [] && block.l1Origin <= l1 {
      var i :| 0 <= i < |blocks| && blocks[i].l1Origin == l1;
      assert more[i] == blocks[i];
    }
  }

  /** What emitting frames changes: the queue grows at its end, nothing else moves but fullness. */
  ghost predicate OnlyFramesAppended(b: Builder, b': Builder, datas: seq<Bytes>) {
    && b' == b.(frames := b'.frames, fullErr := b'.fullErr)
    && |b'.frames| == |b.frames| + |datas|
    && b'.frames[..|b.frames|] == b.frames
    && (forall i :: 0 <= i < |datas| ==> b'.frames[|b.frames| + i].data == datas[i])
    && b'.fullErr == (if datas != [] && |b'.frames| == MAX_FRAMES then Some(MaxFrameIndex) else b.fullErr)
  }

  lemma {:induction false} OutputAllAppends(b: Builder, datas: seq<Bytes>)
    requires BuilderInv(b) && |b.frames| + |datas| <= MAX_FRAMES
    ensures BuilderInv(OutputAll(b, datas))
    ensures OnlyFramesAppended(b, OutputAll(b, datas), datas)
  {
    if datas != [] {
      var n := |datas| - 1;
      OutputAllAppends(b, datas[..n]);
      hide OutputAll;
      OneMoreFrame(b, OutputAll(b, datas[..n]), datas);
    }
  }

  lemma NumberedFrame(m: Builder, data: Bytes)
    requires BuilderInv(m) && |m.frames| < MAX_FRAMES
    ensures BuilderInv(OutputFrame(m, data))
  {
    hide NewestOrigin;
  }

  lemma OneMoreFrame(b: Builder, m: Builder, datas: seq<Bytes>)
    requires datas != [] && |b.frames| + |datas| <= MAX_FRAMES
    requires BuilderInv(m) && OnlyFramesAppended(b, m, datas[..|datas| - 1])
    ensures BuilderInv(OutputFrame(m, datas[|datas| - 1]))
    ensures OnlyFramesAppended(b, OutputFrame(m, datas[|datas| - 1]), datas)
  {
    NumberedFrame(m, datas[|datas| - 1]);
    hide BuilderInv;
  }

  lemma AddBlockKeeps(b: Builder, block: Block, answer: AddResult)
    requires BuilderInv(b)
    ensures BuilderInv(AddBlock(b, block, answer).0)
  {
    hide NewestOrigin, WindowConstraint;
    NewestOriginGrows(b.blocks, b.latestL1, block);
    assert b.blocks != [] ==> (b.blocks + [block])[|b.blocks| - 1] == b.blocks[|b.blocks| - 1];
    assert b.blocks != [] ==> (b.blocks + [block])[0] == b.blocks[0];
    assert forall i :: 0 <= i < |b.blocks| ==> (b.blocks + [block])[i] == b.blocks[i];
    assert (b.blocks + [block])[|b.blocks|] == block;
  }
}
