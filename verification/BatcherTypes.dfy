/**
 Values shared by the batcher's components: L2 blocks, channel configuration,
 frames and transaction data. Hashes are only ever compared for equality, so a
 natural number stands for one; 0 is the zero hash.
 */
module BatcherTypes {

  datatype Option<+T> = None | Some(value: T)

  newtype byte = x: int | 0 <= x < 256

  type Bytes = seq<byte>

  type Hash = nat

  type ChannelId = Bytes

  /** `daSize` is the block's estimated size in a batch (the throttling unit). */
  datatype Block = Block(hash: Hash, number: nat, parent: Hash, l1Origin: nat, daSize: nat)

  datatype Config = Config(
    useBlobs: bool,
    targetNumFrames: nat,
    channelTimeout: nat,
    maxChannelDuration: nat,
    seqWindowSize: nat,
    subSafetyMargin: nat)
  {
    /** The part of the configuration check the state machine relies on. */
    predicate Check() {
      subSafetyMargin <= channelTimeout && 1 <= targetNumFrames
    }

    function MaxFramesPerTx(): nat {
      if useBlobs then targetNumFrames else 1
    }
  }

  datatype FrameId = FrameId(chan: ChannelId, number: nat)

  datatype Frame = Frame(id: FrameId, data: Bytes)

  /** A transaction is identified by the ids of its frames, in order. */
  type TxId = seq<FrameId>

  datatype TxData = TxData(frames: seq<Frame>, asBlob: bool)

  function IdOf(frames: seq<Frame>): (id: TxId)
    ensures |id| == |frames|
    ensures forall i :: 0 <= i < |frames| ==> id[i] == frames[i].id
  {
    seq(|frames|, i requires 0 <= i < |frames| => frames[i].id)
  }

  /** Block numbers rise by one from each block to the next. */
  ghost predicate Consecutive(bs: seq<Block>) {
    forall i :: 0 <= i < |bs| ==> bs[i].number == bs[0].number + i
  }

  function DaSum(bs: seq<Block>): (n: nat) {
    if bs == [] then 0 else bs[0].daSize + DaSum(bs[1..])
  }

  lemma {:induction false} DaSumConcat(a: seq<Block>, b: seq<Block>)
    ensures DaSum(a + b) == DaSum(a) + DaSum(b)
  {
    if a == [] {
      assert a + b == b;
    } else {
      DaSumConcat(a[1..], b);
      assert (a + b)[1..] == a[1..] + b;
    }
  }
}
