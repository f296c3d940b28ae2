/**
 A channel: a builder plus the transactions that carry its frames, pending and
 confirmed.
 */
module Channels {
  import opened BatcherTypes
  import opened ChannelBuilders

  datatype Chan = Chan(
    builder: Builder,
    pending: map<TxId, TxData>,
    confirmed: map<TxId, nat>,
    minInclusion: nat,
    maxInclusion: nat)
  {
    predicate IsFull() {
      builder.IsFull()
    }

    predicate IsFullySubmitted() {
      IsFull() && |pending| + builder.PendingFrames() == 0
    }

    predicate NoneSubmitted() {
      |confirmed| == 0 && |pending| == 0
    }

    /** The subtraction is on unsigned 64-bit words. */
    predicate IsTimedOut() {
      |confirmed| > 0 && builder.cfg.channelTimeout <= Wrap64(maxInclusion - minInclusion)
    }

    predicate HasTxData() {
      if IsFull() || !builder.cfg.useBlobs then builder.HasPendingFrame()
      else builder.cfg.MaxFramesPerTx() <= builder.PendingFrames()
    }
  }

  function NewChan(cfg: Config, id: ChannelId, l1Origin: nat): Chan {
    Chan(NewBuilder(cfg, id, l1Origin), map[], map[], UINT64_RANGE - 1, 0)
  }

  /** The frames the next transaction takes: as many as fit, from the cursor on. */
  function NextFrames(c: Chan): seq<Frame>
    requires c.builder.frameCursor <= |c.builder.frames|
  {
    var b := c.builder;
    b.frames[b.frameCursor..b.frameCursor + Min(b.cfg.MaxFramesPerTx(), |b.frames| - b.frameCursor)]
  }

  function NextTxData(c: Chan): (Chan, TxData)
    requires c.builder.frameCursor <= |c.builder.frames|
  {
    var tx := TxData(NextFrames(c), c.builder.cfg.useBlobs);
    (c.(builder := c.builder.(frameCursor := c.builder.frameCursor + |tx.frames|),
        pending := c.pending[IdOf(tx.frames) := tx]), tx)
  }

  /** Rewinding to the first frame of the failed transaction must be possible. */
  predicate CanFail(c: Chan, id: TxId) {
    id in c.pending ==> c.pending[id].frames != [] && CanRewind(c.builder, c.pending[id].frames[0])
  }

  function TxFailed(c: Chan, id: TxId): Chan
    requires CanFail(c, id)
  {
    if id in c.pending then
      c.(builder := RewindFrameCursor(c.builder, c.pending[id].frames[0]), pending := c.pending - {id})
    else c
  }

  function TxConfirmed(c: Chan, id: TxId, l1: nat): (Chan, bool) {
    if id !in c.pending then (c, false)
    else
      var c' := c.(builder := FramePublished(c.builder, l1),
                   pending := c.pending - {id},
                   confirmed := c.confirmed[id := l1],
                   minInclusion := Min(c.minInclusion, l1),
                   maxInclusion := Max(c.maxInclusion, l1));
      (c', c'.IsTimedOut())
  }

  // ---------------------------------------------------------------- frame coverage

  /** `id` names a non-empty run of the builder's frames. */
  ghost predicate NamesFrames(b: Builder, id: TxId) {
    && id != []
    && id[0].number + |id| <= |b.frames|
    && (forall i :: 0 <= i < |id| ==> id[i] == FrameId(b.id, id[0].number + i))
  }

  ghost predicate Carries(id: TxId, frame: nat) {
    id != [] && id[0].number <= frame < id[0].number + |id|
  }

  ghost predicate Covered(c: Chan, frame: nat) {
    exists id: TxId :: (id in c.pending || id in c.confirmed) && Carries(id, frame)
  }

  /** Every pending transaction carries exactly the frames its id names. */
  ghost predicate PendingNamed(c: Chan) {
    forall id: TxId :: id in c.pending ==>
      && NamesFrames(c.builder, id)
      && c.pending[id].frames == c.builder.frames[id[0].number..id[0].number + |id|]
  }

  ghost predicate ConfirmedNamed(c: Chan) {
    forall id: TxId :: id in c.confirmed ==> NamesFrames(c.builder, id)
  }

  ghost predicate CursorCovered(c: Chan) {
    forall frame :: 0 <= frame < c.builder.frameCursor ==> Covered(c, frame)
  }

  ghost predicate ChanInv(c: Chan) {
    BuilderInv(c.builder) && PendingNamed(c) && ConfirmedNamed(c) && CursorCovered(c)
  }

  lemma NewChanInv(cfg: Config, id: ChannelId, l1Origin: nat)
    requires cfg.Check()
    ensures ChanInv(NewChan(cfg, id, l1Origin))
  {
  }

  /** Blocks, timeouts and new frames at the end leave the submitted frames alone. */
  lemma BuilderChangeKeeps(c: Chan, b': Builder)
    requires ChanInv(c) && BuilderInv(b')
    requires b'.id == c.builder.id && b'.frameCursor == c.builder.frameCursor
    requires |c.builder.frames| <= |b'.frames|
    requires b'.frames[..|c.builder.frames|] == c.builder.frames
    ensures ChanInv(c.(builder := b'))
  {
    hide BuilderInv, PendingNamed, ConfirmedNamed, CursorCovered;
    GrownNames(c, b');
    SameCoverage(c, c.(builder := b'));
  }

  lemma GrownNames(c: Chan, b': Builder)
    requires PendingNamed(c) && ConfirmedNamed(c) && b'.id == c.builder.id
    requires |c.builder.frames| <= |b'.frames|
    requires b'.frames[..|c.builder.frames|] == c.builder.frames
    ensures PendingNamed(c.(builder := b')) && ConfirmedNamed(c.(builder := b'))
  {
    forall id: TxId | id in c.pending
      ensures NamesFrames(b', id) && c.pending[id].frames == b'.frames[id[0].number..id[0].number + |id|]
    {
      SameRange(c.builder.frames, b'.frames, id[0].number, |id|);
    }
  }

  lemma SameRange(frames: seq<Frame>, grown: seq<Frame>, k: nat, n: nat)
    requires k + n <= |frames| <= |grown| && grown[..|frames|] == frames
    ensures grown[k..k + n] == frames[k..k + n]
  {
    var a, b := grown[k..k + n], frames[k..k + n];
    forall i | 0 <= i < n
      ensures a[i] == b[i]
    {
      assert grown[..|frames|][k + i] == frames[k + i];
    }
  }

  /** Frames below the cursor stay covered when no transaction that carries one of them is dropped. */
  lemma SameCoverage(c: Chan, c': Chan)
    requires CursorCovered(c) && c'.builder.frameCursor <= c.builder.frameCursor
    requires forall id: TxId :: (id in c.pending || id in c.confirmed) ==>
               id in c'.pending || id in c'.confirmed || (id != [] && c'.builder.frameCursor <= id[0].number)
    ensures CursorCovered(c')
  {
    forall frame | 0 <= frame < c'.builder.frameCursor
      ensures Covered(c', frame)
    {
      assert Covered(c, frame);
      var t: TxId :| (t in c.pending || t in c.confirmed) && Carries(t, frame);
      assert t in c'.pending || t in c'.confirmed;
    }
  }

  /** The next transaction is a non-empty run of frames starting at the cursor. */
  lemma NextTxNames(c: Chan)
    requires ChanInv(c) && c.HasTxData()
    ensures NextTxData(c).1.frames != []
    ensures NamesFrames(c.builder, IdOf(NextTxData(c).1.frames))
    ensures IdOf(NextTxData(c).1.frames)[0].number == c.builder.frameCursor
  {
    var b := c.builder;
    var tx := NextTxData(c).1;
    assert tx.frames[0] == b.frames[b.frameCursor];
    forall i | 0 <= i < |tx.frames|
      ensures IdOf(tx.frames)[i] == FrameId(b.id, b.frameCursor + i)
    {
      assert tx.frames[i] == b.frames[b.frameCursor + i];
    }
  }

  /** Handing out the frames at the cursor in one transaction keeps every frame below the cursor covered. */
  lemma SubmitKeeps(c: Chan, id: TxId, tx: TxData)
    requires ChanInv(c) && NamesFrames(c.builder, id)
    requires id[0].number == c.builder.frameCursor
    requires tx.frames == c.builder.frames[c.builder.frameCursor..c.builder.frameCursor + |id|]
    ensures ChanInv(c.(builder := c.builder.(frameCursor := c.builder.frameCursor + |id|),
                       pending := c.pending[id := tx]))
  {
    var c' := c.(builder := c.builder.(frameCursor := c.builder.frameCursor + |id|), pending := c.pending[id := tx]);
    forall frame | 0 <= frame < c'.builder.frameCursor
      ensures Covered(c', frame)
    {
      if frame < c.builder.frameCursor {
        assert Covered(c, frame);
        var t: TxId :| (t in c.pending || t in c.confirmed) && Carries(t, frame);
        assert t in c'.pending || t in c'.confirmed;
      } else {
        assert id in c'.pending && Carries(id, frame);
      }
    }
  }

  lemma NextTxDataKeeps(c: Chan)
    requires ChanInv(c) && c.HasTxData()
    ensures ChanInv(NextTxData(c).0)
  {
    var (c', tx) := NextTxData(c);
    var id := IdOf(tx.frames);
    assert NamesFrames(c.builder, id) && id[0].number == c.builder.frameCursor by {
      NextTxNames(c);
    }
    assert c' == c.(builder := c.builder.(frameCursor := c.builder.frameCursor + |id|), pending := c.pending[id := tx]);
    SubmitKeeps(c, id, tx);
  }

  /** A pending transaction can always be rewound to: no panic. */
  lemma PendingCanFail(c: Chan, id: TxId)
    requires ChanInv(c)
    ensures CanFail(c, id)
  {
    if id in c.pending {
      var k := id[0].number;
      assert NamesFrames(c.builder, id);
      assert c.pending[id].frames[0] == c.builder.frames[k];
    }
  }

  lemma TxFailedKeeps(c: Chan, id: TxId)
    requires ChanInv(c) && CanFail(c, id)
    ensures ChanInv(TxFailed(c, id))
  {
    if id in c.pending {
      assert NamesFrames(c.builder, id);
      assert c.pending[id].frames[0] == c.builder.frames[id[0].number];
      hide BuilderInv, PendingNamed, ConfirmedNamed, CursorCovered, NamesFrames;
      var c' := TxFailed(c, id);
      assert BuilderInv(c'.builder) by { RewindKeeps(c.builder, c.pending[id].frames[0]); }
      SameNames(c, c');
      SameCoverage(c, c');
    }
  }

  /** Sending on from `cursor` sends all frames of the transaction. */
  ghost predicate LeavesToSend(id: TxId, cursor: nat) {
    forall frame: nat :: Carries(id, frame) ==> cursor <= frame
  }

  /**
   A failed transaction rewinds by the least amount: the new cursor is the greatest, not above the old one, that leaves
   all of its frames to be sent. Nothing else changes but that it is no longer pending.
   */
  lemma TxFailedExact(c: Chan, id: TxId)
    requires ChanInv(c) && CanFail(c, id)
    ensures id !in c.pending ==> TxFailed(c, id) == c
    ensures id in c.pending ==>
      var cursor := TxFailed(c, id).builder.frameCursor;
      && cursor <= c.builder.frameCursor && LeavesToSend(id, cursor)
      && (forall k :: cursor < k <= c.builder.frameCursor ==> !LeavesToSend(id, k))
      && TxFailed(c, id) == c.(builder := c.builder.(frameCursor := cursor), pending := c.pending - {id})
  {
    hide BuilderInv, ConfirmedNamed, CursorCovered;
    if id in c.pending {
      var first := id[0].number;
      assert NamesFrames(c.builder, id);
      assert c.pending[id].frames[0] == c.builder.frames[first];
      assert c.builder.frames[first].id.number == first by {
        FrameNumbered(c.builder, first);
      }
      assert Carries(id, first);
    }
  }

  lemma FrameNumbered(b: Builder, i: nat)
    requires BuilderInv(b) && i < |b.frames|
    ensures b.frames[i].id == FrameId(b.id, i)
  {
  }

  lemma RewindKeeps(b: Builder, f: Frame)
    requires BuilderInv(b) && CanRewind(b, f)
    ensures BuilderInv(RewindFrameCursor(b, f))
  {
  }

  /** Dropping or confirming pending transactions leaves the rest named as they were. */
  lemma SameNames(c: Chan, c': Chan)
    requires PendingNamed(c) && ConfirmedNamed(c)
    requires c'.builder.frames == c.builder.frames && c'.builder.id == c.builder.id
    requires forall id: TxId :: id in c'.pending ==> id in c.pending && c'.pending[id] == c.pending[id]
    requires forall id: TxId :: id in c'.confirmed ==> id in c.pending || id in c.confirmed
    ensures PendingNamed(c') && ConfirmedNamed(c')
  {
  }

  lemma PublishedKeeps(b: Builder, l1: nat)
    requires BuilderInv(b)
    ensures BuilderInv(FramePublished(b, l1))
  {
  }

  lemma TxConfirmedKeeps(c: Chan, id: TxId, l1: nat)
    requires ChanInv(c)
    ensures ChanInv(TxConfirmed(c, id, l1).0)
  {
    hide BuilderInv, PendingNamed, ConfirmedNamed, CursorCovered, InclusionConstraint, Min, Max;
    if id in c.pending {
      var c' := TxConfirmed(c, id, l1).0;
      PublishedKeeps(c.builder, l1);
      SameNames(c, c');
      SameCoverage(c, c');
    }
  }

  /** The frame is part of a confirmed transaction. */
  ghost predicate FrameConfirmed(c: Chan, frame: nat)
    requires frame < |c.builder.frames|
  {
    exists id: TxId :: id in c.confirmed && c.builder.frames[frame].id in id
  }

  /** Fully submitted means: takes no more blocks, every frame handed out, and no transaction on its way. */
  lemma FullySubmittedExact(c: Chan)
    requires ChanInv(c)
    ensures c.IsFullySubmitted() <==>
      c.builder.fullErr.Some? && c.builder.frameCursor == |c.builder.frames| && forall id: TxId :: id !in c.pending
  {
    hide PendingNamed, ConfirmedNamed, CursorCovered;
    if c.pending != map[] {
      var id: TxId :| id in c.pending;
    }
  }

  /** A fully submitted channel has every frame it created inside a confirmed transaction. */
  lemma FullySubmittedMeansConfirmed(c: Chan, frame: nat)
    requires ChanInv(c) && c.IsFullySubmitted() && frame < |c.builder.frames|
    ensures FrameConfirmed(c, frame)
  {
    assert Covered(c, frame);
    var id: TxId :| (id in c.pending || id in c.confirmed) && Carries(id, frame);
    assert NamesFrames(c.builder, id);
    assert id[frame - id[0].number] == c.builder.frames[frame].id;
  }
}
