/**
 Finality by block. What is reported as final is an L1 block, so everything
 derived up to that block is; one commitment of a block can be dropped as settled
 while another one of the same block is still open.
 */
module DaFinalBlock {
  import opened BatcherTypes
  import opened Commitments
  import opened DaState
  import opened DaLog
  import opened DaLogSteps
  import opened DaManager
  import opened DaRuns
  import opened DaReorg
  import opened DaFinality
  import opened DaCare

  /** The commitment is at or before the block reported as final. */
  ghost predicate Covers(head: BlockRef, c: Commitment) {
    c.inclusion.number <= head.number
  }

  /** Read off the tracker: the challenge, if any, is resolved, and the window is over by block `m` or was pruned as over. */
  ghost predicate ReadsSettled(w: World, c: Commitment, m: nat)
    requires w.d.tracker.WellFormed()
  {
    && !w.d.tracker.Unresolved(c)
    && (w.d.tracker.ExpiresAt(c) <= m || (c.Key() !in w.d.tracker.index && !Challengeless(w.log, c.Key())))
  }

  lemma SettledReadOff(w: World, hash: HashFn, c: Commitment, m: nat)
    requires DaInv(w, hash) && w.d.tracker.WellFormed() && !ForgottenNow(w, hash, c.Key()) && w.pruned <= m
    ensures Settled(hash, w.log, c, w.d.tracker.resolveWindow, m) <==> ReadsSettled(w, c, m)
  {
    hide TrackerInv, VerifiedInputs, ResolvedAfter;
    if c.Key() in w.d.tracker.index {
      var n := IndexedInLog(w, hash, c.Key());
      OnlyCreate(w, hash, c.Key(), n);
    } else if !Challengeless(w.log, c.Key()) {
      var n: nat :| n < |w.log| && Creates(w.log[n], c.Key());
      OnlyCreate(w, hash, c.Key(), n);
      GoneMeansPruned(w, hash, c.Key(), n);
    }
  }

  /** Every tracked commitment up to the block that finalizing `l1Finalized` reports is settled. */
  ghost predicate BlockSettled(w: World, hash: HashFn, l1Finalized: BlockRef)
    requires w.d.tracker.WellFormed()
  {
    forall c :: Tracks(w.d.tracker, c) && Covers(Finalize(w.d, l1Finalized).finalizedHead, c) ==>
      Settled(hash, w.log, c, w.d.tracker.resolveWindow, Horizon(w, l1Finalized.number))
  }

  /** Every commitment up to that block that is still tracked afterwards reads as settled. */
  ghost predicate LeftReadSettled(w: World, l1Finalized: BlockRef)
    requires w.d.tracker.WellFormed()
  {
    var d' := Finalize(w.d, l1Finalized);
    forall c :: Tracks(d'.tracker, c) && Covers(d'.finalizedHead, c) ==> ReadsSettled(w, c, Horizon(w, l1Finalized.number))
  }

  /**
   In every careful run, finalizing an L1 block reports a block whose tracked commitments are all settled, if and only if
   those that stay in a queue, up to that block, read as settled in the tracker.
   */
  lemma BlockFinalExact(keccakMode: bool, challengeWindow: nat, resolveWindow: nat, hash: HashFn, ops: seq<DaOp>, w: World,
                        l1Finalized: BlockRef)
    requires CarefullyReaches(keccakMode, challengeWindow, resolveWindow, hash, ops, w)
    requires w.d.tracker.WellFormed() && Prompt(w, hash, OpFinalize(l1Finalized))
    ensures BlockSettled(w, hash, l1Finalized) <==> LeftReadSettled(w, l1Finalized)
  {
    hide DaInv, Settled, Forgotten, Allowed, CarefullyReaches, Finalize, ReadsSettled, DueCommitments;
    ReachedFinal(keccakMode, challengeWindow, resolveWindow, hash, ops, w);
    var s, f, d' := w.d.tracker, l1Finalized.number, Finalize(w.d, l1Finalized);
    HeadReported(w.d, l1Finalized);
    PrunedBehind(w, hash);
    StillQueued(s.expiredCommitments, Dropped(w.d, f));
    forall c | Tracks(d'.tracker, c)
      ensures Tracks(s, c) && (Settled(hash, w.log, c, s.resolveWindow, Horizon(w, f)) <==> ReadsSettled(w, c, Horizon(w, f)))
    {
      SettledReadOff(w, hash, c, Horizon(w, f));
    }
    forall c | Tracks(s, c) && !Tracks(d'.tracker, c)
      ensures Settled(hash, w.log, c, s.resolveWindow, Horizon(w, f))
    {
      var i :| 0 <= i < |s.expiredCommitments| && s.expiredCommitments[i] == c;
      DroppedSettled(w, hash, f, i);
    }
  }

  /** What is behind the part dropped from a queue stays in it. */
  lemma StillQueued(queue: seq<Commitment>, n: nat)
    requires n <= |queue|
    ensures forall i :: n <= i < |queue| ==> queue[i] in queue[n..]
  {
    forall i | n <= i < |queue|
      ensures queue[i] in queue[n..]
    {
      assert queue[n..][i - n] == queue[i];
    }
  }

  /** No two commitments share an inclusion block, and they are recorded in the order of their blocks. */
  ghost predicate OnePerBlock(s: Tracker) {
    var queue := s.expiredCommitments + s.commitments;
    forall i, j :: 0 <= i < j < |queue| ==> queue[i].inclusion.number < queue[j].inclusion.number
  }

  /** With one commitment per block, a finalization that drops any leaves none open up to the block it reports. */
  lemma OnePerBlockFinal(keccakMode: bool, challengeWindow: nat, resolveWindow: nat, hash: HashFn, ops: seq<DaOp>, w: World,
                         l1Finalized: BlockRef)
    requires CarefullyReaches(keccakMode, challengeWindow, resolveWindow, hash, ops, w)
    requires w.d.tracker.WellFormed() && Prompt(w, hash, OpFinalize(l1Finalized))
    requires OnePerBlock(w.d.tracker) && 0 < Dropped(w.d, l1Finalized.number)
    ensures BlockSettled(w, hash, l1Finalized)
  {
    hide CarefullyReaches, Prompt, BlockSettled, Finalize, ReadsSettled, DueCommitments;
    BlockFinalExact(keccakMode, challengeWindow, resolveWindow, hash, ops, w, l1Finalized);
    HeadReported(w.d, l1Finalized);
    var s, n := w.d.tracker, Dropped(w.d, l1Finalized.number);
    var queue := s.expiredCommitments + s.commitments;
    assert queue[n - 1] == s.expiredCommitments[n - 1];
    forall c | c in s.expiredCommitments[n..] || c in s.commitments
      ensures s.expiredCommitments[n - 1].inclusion.number < c.inclusion.number
    {
      if c in s.expiredCommitments[n..] {
        var i :| 0 <= i < |s.expiredCommitments[n..]| && s.expiredCommitments[n..][i] == c;
        assert queue[n + i] == c;
      } else {
        var i :| 0 <= i < |s.commitments| && s.commitments[i] == c;
        assert queue[|s.expiredCommitments| + i] == c;
      }
    }
  }

  // ---------------------------------------------------------------- the head without commitments

  /** With nothing tracked, no challenge is known. */
  lemma NothingIndexed(w: World, hash: HashFn, k: Key)
    requires DaInv(w, hash) && w.d.tracker.NoCommitments()
    ensures k !in w.d.tracker.index
  {
    hide VerifiedInputs, Mirrors, UniqueCreates, SortedByEnd, CutAt;
  }

  /**
   With nothing tracked, any commitment whose challenge window is over in the finalized L1 block is settled if and only
   if no challenge against it was forgotten, and, when it was never challenged, its window is also over in the last block
   processed.
   */
  lemma AgedIsSettled(w: World, hash: HashFn, c: Commitment)
    requires PromptInv(w, hash) && w.d.tracker.NoCommitments() && c.windowEnd <= w.d.l1FinalizedHead.number
    ensures Settled(hash, w.log, c, w.d.tracker.resolveWindow, Horizon(w, w.d.l1FinalizedHead.number))
      <==> !ForgottenNow(w, hash, c.Key()) && (Challengeless(w.log, c.Key()) ==> c.windowEnd <= w.d.challengeOrigin)
  {
    hide TrackerInv, VerifiedInputs, ResolvedAfter;
    NothingIndexed(w, hash, c.Key());
    PrunedBehind(w, hash);
    if !Challengeless(w.log, c.Key()) {
      var n: nat :| n < |w.log| && Creates(w.log[n], c.Key());
      OnlyCreate(w, hash, c.Key(), n);
      GoneMeansPruned(w, hash, c.Key(), n);
    }
  }

  /** An advance moves the head only when nothing is tracked, to the block one challenge window before the finalized one. */
  lemma AdvanceMovesHead(d: Da, hash: HashFn, at: nat, fetched: Fetched, aged: Option<BlockRef>)
    requires d.tracker.WellFormed()
    ensures var d' := AdvanceL1Origin(d, hash, at, fetched, aged).0;
      && d'.l1FinalizedHead == d.l1FinalizedHead
      && (d'.finalizedHead != d.finalizedHead ==>
            d'.tracker.NoCommitments() && d'.tracker.challengeWindow <= d'.l1FinalizedHead.number && aged == Some(d'.finalizedHead))
  {
    hide ExpireChallenges, LoadEvents, ExpireCommitments;
    ExpireKeepsWellFormed(d, hash, at, fetched);
  }

  /** The head that an advance reports: every commitment up to it, tracked or not, is settled under that exact condition. */
  lemma AgedHeadExact(w: World, hash: HashFn, op: DaOp, c: Commitment)
    requires PromptInv(w, hash) && w.d.tracker.WellFormed() && op.OpAdvance? && Prompt(w, hash, op)
    requires op.aged.Some? ==> op.aged.value.number + w.d.tracker.challengeWindow == w.d.l1FinalizedHead.number
    requires var d' := Step(w, hash, op).d; d'.finalizedHead != w.d.finalizedHead && Covers(d'.finalizedHead, c)
    requires c.windowEnd == c.inclusion.number + w.d.tracker.challengeWindow
    ensures var w' := Step(w, hash, op);
      Settled(hash, w'.log, c, w'.d.tracker.resolveWindow, Horizon(w', w'.d.l1FinalizedHead.number))
      <==> !ForgottenNow(w', hash, c.Key()) && (Challengeless(w'.log, c.Key()) ==> c.windowEnd <= w'.d.challengeOrigin)
  {
    hide PromptInv, AdvanceL1Origin, Settled, Forgotten, Challengeless, Allowed;
    AdvanceMovesHead(w.d, hash, op.at, op.fetched, op.aged);
    StepPrompt(w, hash, op);
    AgedIsSettled(Step(w, hash, op), hash, c);
  }

  /**
   Finalizing replaces the head that an advance reported. With commitments recorded in the order of their blocks it does
   not go back if and only if a commitment dropped now is at or after that head or, when none is, the last dropped before.
   */
  lemma HeadStaysExact(d: Da, l1Finalized: BlockRef)
    requires d.tracker.WellFormed()
    requires forall i, j :: 0 <= i < j < |d.tracker.expiredCommitments| ==>
      d.tracker.expiredCommitments[i].inclusion.number <= d.tracker.expiredCommitments[j].inclusion.number
    ensures var s, n := d.tracker, Dropped(d, l1Finalized.number);
      d.finalizedHead.number <= Finalize(d, l1Finalized).finalizedHead.number <==>
        if n == 0 then d.finalizedHead.number <= s.lastPruned.number
        else exists i :: 0 <= i < n && d.finalizedHead.number <= s.expiredCommitments[i].inclusion.number
  {
    hide Finalize, DueCommitments;
    HeadReported(d, l1Finalized);
  }

  // ---------------------------------------------------------------- a head that goes back

  const L1_20 := BlockRef(120, 20)
  const AGED := BlockRef(110, 10)
  const ADVANCE := OpAdvance(30, Some([]), Some(AGED))

  function Finalized20(): Da { NewDa(true, 10, 10).(l1FinalizedHead := L1_20) }

  function Advanced30(): Da { Finalized20().(challengeOrigin := 30, commitmentOrigin := 30, finalizedHead := AGED) }

  lemma EmptyTracker(s: Tracker, hash: HashFn, at: nat)
    requires s == NewTracker(10, 10)
    ensures LoadEvents(s, hash, at, []) == s && ExpireChallenges(s, at) == s && ExpireCommitments(s, at) == (s, false)
    ensures PruneTracker(s, at) == s
  {
    assert ExpireChallenges(s, at).store == [];
    assert PruneChallenges(s, at).index == map[];
  }

  lemma CarefulSteps(hash: HashFn)
    ensures var w := World(NewDa(true, 10, 10), [], -1);
      Careful(w, hash, OpFinalize(L1_20)) && Step(w, hash, OpFinalize(L1_20)) == World(Finalized20(), [], 0)
    ensures var w := World(Finalized20(), [], 0);
      Careful(w, hash, ADVANCE) && Step(w, hash, ADVANCE) == World(Advanced30(), [], 0)
  {
    hide LoadEvents, ExpireChallenges, ExpireCommitments, PruneTracker;
    EmptyTracker(NewTracker(10, 10), hash, 20);
    EmptyTracker(NewTracker(10, 10), hash, 30);
    assert [] + Entries(30, []) == [];
  }

  /** Before any commitment, a careful run reports block 10 of an L1 finalized up to 20, and the next finalization block 0. */
  lemma HeadGoesBack(hash: HashFn, l1Finalized: BlockRef)
    ensures CarefullyReaches(true, 10, 10, hash, [OpFinalize(L1_20), ADVANCE], World(Advanced30(), [], 0))
    ensures Advanced30().finalizedHead.number == 10 && Finalize(Advanced30(), l1Finalized).finalizedHead.number == 0
  {
    hide CarefullyReaches, Careful, Step, PruneTracker;
    CarefulStart(true, 10, 10, hash);
    CarefulSteps(hash);
    CarefullyOn(true, 10, 10, hash, [], World(NewDa(true, 10, 10), [], -1), OpFinalize(L1_20), World(Finalized20(), [], 0));
    CarefullyOn(true, 10, 10, hash, [] + [OpFinalize(L1_20)], World(Finalized20(), [], 0), ADVANCE, World(Advanced30(), [], 0));
    assert [] + [OpFinalize(L1_20)] + [ADVANCE] == [OpFinalize(L1_20), ADVANCE];
    EmptyTracker(NewTracker(10, 10), hash, l1Finalized.number);
  }
}
