/**
 What reading an input guarantees: the bytes match the commitment, and waiting
 for a missing input ends.
 */
module DaReads {
  import opened BatcherTypes
  import opened Commitments
  import opened DaState
  import opened DaLog
  import opened DaManager
  import opened DaRuns

  /** Every input returned for a Keccak commitment hashes to it, given a storage client that verifies what it returns. */
  lemma ReadSound(w: World, hash: HashFn, op: DaOp)
    requires DaInv(w, hash) && op.OpRead? && op.comm.Keccak?
    requires op.stored.Found? ==> op.comm.Verify(hash, op.stored.data)
    ensures var r := GetInput(w.d, hash, op.comm, op.inclusion, op.stored, op.next).1;
      r.Input? ==> hash(r.data) == op.comm.data
  {
    hide TrackerInv, LookAhead;
    HasWellFormed(w, hash);
    LookAheadNoInput(w.d.(tracker := TrackCommitment(w.d.tracker, op.comm, op.inclusion)), hash, op.next);
  }

  lemma LookAheadNoInput(d: Da, hash: HashFn, next: NextBlock)
    requires d.tracker.WellFormed()
    ensures !LookAhead(d, hash, next).1.Input?
  {
  }

  // ---------------------------------------------------------------- stalling

  /** How many more L1 blocks may be looked at before a commitment's fate is known. */
  ghost function Slack(d: Da, inclusion: nat): int {
    inclusion + d.tracker.challengeWindow + d.tracker.resolveWindow + 1 - d.challengeOrigin
  }

  ghost predicate Pends(d: Da, hash: HashFn, op: DaOp)
    requires d.tracker.WellFormed()
  {
    op.OpRead? && GetInput(d, hash, op.comm, op.inclusion, op.stored, op.next).1.PendingChallenge?
  }

  /** An open challenge was raised inside the challenge window, so its own window ends in time. */
  lemma OpenChallengeEnds(w: World, hash: HashFn, k: Key)
    requires DaInv(w, hash) && w.d.tracker.WellFormed() && w.d.tracker.StatusOf(k) == Active
    ensures w.d.challengeOrigin < k.1 + w.d.tracker.challengeWindow + w.d.tracker.resolveWindow
  {
    hide UniqueCreates, ResolvedAfter, Positions;
    var i := w.d.tracker.index[k];
    assert Mirrors(w.d.tracker, hash, w.log, i);
    assert InWindow(w.d.tracker, w.log[Positions(w.log)[i]]);
  }

  /** Each pending answer uses up one block of a slack that is positive before it. */
  lemma PendingUsesSlack(w: World, hash: HashFn, op: DaOp)
    requires DaInv(w, hash) && Allowed(w, hash, op) && w.d.tracker.WellFormed() && Pends(w.d, hash, op)
    ensures 0 < Slack(w.d, op.inclusion.number)
    ensures Slack(Step(w, hash, op).d, op.inclusion.number) == Slack(w.d, op.inclusion.number) - 1
  {
    hide TrackerInv, ExpireChallenges, LoadEvents, VerifiedInputs;
    if w.d.tracker.StatusOf((op.comm, op.inclusion.number)) == Active {
      OpenChallengeEnds(w, hash, (op.comm, op.inclusion.number));
    }
    StepSettings(w, hash, op);
  }

  /** The windows never change, and the challenge origin does not move back. */
  ghost predicate MovesOn(d: Da, d': Da) {
    && d'.tracker.challengeWindow == d.tracker.challengeWindow && d'.tracker.resolveWindow == d.tracker.resolveWindow
    && d.challengeOrigin <= d'.challengeOrigin
  }

  lemma AdvanceMovesOn(d: Da, hash: HashFn, at: nat, fetched: Fetched)
    requires d.tracker.WellFormed()
    ensures MovesOn(d, AdvanceChallengeOrigin(d, hash, at, fetched).0)
  {
    hide ExpireChallenges, LoadEvents;
    if EventsOf(d, fetched).Some? {
      NextSettings(d.tracker, hash, at, EventsOf(d, fetched).value);
    }
  }

  lemma AdvanceL1MovesOn(d: Da, hash: HashFn, at: nat, fetched: Fetched, aged: Option<BlockRef>)
    requires d.tracker.WellFormed()
    ensures MovesOn(d, AdvanceL1Origin(d, hash, at, fetched, aged).0)
  {
    hide AdvanceChallengeOrigin, AdvanceCommitmentOrigin;
    AdvanceMovesOn(d, hash, at, fetched);
    if AdvanceChallengeOrigin(d, hash, at, fetched).1 == Advanced {
      ExpireKeepsWellFormed(d, hash, at, fetched);
      CommitmentAdvanceMovesOn(AdvanceChallengeOrigin(d, hash, at, fetched).0, at);
    }
  }

  lemma CommitmentAdvanceMovesOn(d: Da, at: nat)
    requires d.tracker.WellFormed()
    ensures MovesOn(d, AdvanceCommitmentOrigin(d, at).0)
  {
    hide DueCommitments;
  }

  lemma ReadMovesOn(d: Da, hash: HashFn, comm: Comm, inclusion: BlockRef, stored: Stored, next: NextBlock)
    requires d.tracker.WellFormed()
    ensures MovesOn(d, GetInput(d, hash, comm, inclusion, stored, next).0)
  {
    hide AdvanceChallengeOrigin;
    if next.Some? {
      AdvanceMovesOn(d.(tracker := TrackCommitment(d.tracker, comm, inclusion)), hash, d.challengeOrigin + 1, next.value);
    }
  }

  /** No operation but a reset for an L1 reorg moves the challenge origin back. */
  lemma StepSettings(w: World, hash: HashFn, op: DaOp)
    requires w.d.tracker.WellFormed() && (op.OpReset? ==> w.d.resetting)
    ensures MovesOn(w.d, Step(w, hash, op).d)
  {
    hide AdvanceL1Origin, GetInput, DueCommitments, DueChallenges;
    match op
    case OpAdvance(at, fetched, aged) =>
      AdvanceL1MovesOn(w.d, hash, at, fetched, aged);
    case OpRead(comm, inclusion, stored, next) =>
      ReadMovesOn(w.d, hash, comm, inclusion, stored, next);
    case _ =>
  }

  lemma NextSettings(s: Tracker, hash: HashFn, at: nat, es: seq<Event>)
    requires s.WellFormed()
    ensures var s' := NextTracker(s, hash, at, es);
      && s'.challengeWindow == s.challengeWindow && s'.resolveWindow == s.resolveWindow
      && s'.commitments == s.commitments && s'.expiredCommitments == s.expiredCommitments && s'.lastPruned == s.lastPruned
  {
    LoadSettings(s, hash, at, es);
    ExpireKeepsSettings(LoadEvents(s, hash, at, es), at);
  }

  /** The pending answers a run gives for one inclusion block. */
  ghost function CountPending(w: World, hash: HashFn, ops: seq<DaOp>, inclusion: nat): nat
    requires DaInv(w, hash)
    decreases |ops|
  {
    if ops == [] || !(HasWellFormed(w, hash); Allowed(w, hash, ops[0])) then 0
    else
      StepKeeps(w, hash, ops[0]);
      (if Pends(w.d, hash, ops[0]) && ops[0].inclusion.number == inclusion then 1 else 0)
      + CountPending(Step(w, hash, ops[0]), hash, ops[1..], inclusion)
  }

  /** No operation of the run is a reset for an L1 reorg. */
  ghost predicate NoL1Reorg(w: World, hash: HashFn, ops: seq<DaOp>)
    requires DaInv(w, hash)
    decreases |ops|
  {
    ops == [] ||
    (&& (ops[0].OpReset? ==> w.d.resetting)
     && ((HasWellFormed(w, hash); Allowed(w, hash, ops[0])) ==>
           (StepKeeps(w, hash, ops[0]); NoL1Reorg(Step(w, hash, ops[0]), hash, ops[1..]))))
  }

  /**
   Stalling ends: whatever else a run does, short of an L1 reorg, it answers "pending" for one inclusion block at most
   as often as there was slack at its start.
   */
  lemma {:induction false} StallIsBounded(w: World, hash: HashFn, ops: seq<DaOp>, w': World, inclusion: nat)
    requires DaInv(w, hash) && Leads(w, hash, ops, w') && NoL1Reorg(w, hash, ops)
    ensures CountPending(w, hash, ops, inclusion) <= (if 0 < Slack(w.d, inclusion) then Slack(w.d, inclusion) else 0)
    decreases |ops|
  {
    hide DaInv, Allowed, Step, GetInput;
    if ops != [] {
      HasWellFormed(w, hash);
      StepKeeps(w, hash, ops[0]);
      StepSettings(w, hash, ops[0]);
      StallIsBounded(Step(w, hash, ops[0]), hash, ops[1..], w', inclusion);
      if Pends(w.d, hash, ops[0]) && ops[0].inclusion.number == inclusion {
        PendingUsesSlack(w, hash, ops[0]);
      }
    }
  }

  // ---------------------------------------------------------------- which answer

  /** The status the event log gives the commitment that is read. */
  ghost function StatusRead(w: World, hash: HashFn, op: DaOp): Status
    requires op.OpRead?
  {
    LogStatus(hash, w.log, (op.comm, op.inclusion.number), w.d.tracker.resolveWindow, w.d.challengeOrigin, w.pruned)
  }

  /** The commitment is of the configured kind, its challenge has not expired, and the storage has nothing for it. */
  ghost predicate Missing(w: World, hash: HashFn, op: DaOp)
    requires op.OpRead?
  {
    op.comm.Keccak? == w.d.keccakMode && StatusRead(w, hash, op) != Expired && op.stored.NotFound?
  }

  /** No challenge can come any more. */
  ghost predicate PastWindow(w: World, op: DaOp)
    requires op.OpRead?
  {
    op.inclusion.number + w.d.tracker.challengeWindow < w.d.challengeOrigin
  }

  /** The commitment's fate is open: it is under challenge, or can still be challenged. */
  ghost predicate FateOpen(w: World, hash: HashFn, op: DaOp)
    requires op.OpRead?
  {
    StatusRead(w, hash, op) == Active || (StatusRead(w, hash, op) == Uninitialized && !PastWindow(w, op))
  }

  /** The L1 block after the challenge origin is there, and so are its events. */
  ghost predicate NextIsThere(w: World, op: DaOp)
    requires op.OpRead?
  {
    op.next.Some? && (w.d.keccakMode ==> op.next.value.Some?)
  }

  /** Every answer of a read, from the event log and what the storage and L1 return. */
  lemma AnswerExact(w: World, hash: HashFn, op: DaOp)
    requires DaInv(w, hash) && w.d.tracker.WellFormed() && op.OpRead?
    ensures var r, status := GetInput(w.d, hash, op.comm, op.inclusion, op.stored, op.next).1, StatusRead(w, hash, op);
      && (r.ExpiredChallenge? <==> op.comm.Keccak? != w.d.keccakMode || status == Expired)
      && (r.MissingPastWindow? <==>
            && Missing(w, hash, op)
            && ((status == Uninitialized && PastWindow(w, op)) || (status == Resolved && op.comm.Generic?)))
      && (r.PendingChallenge? <==> Missing(w, hash, op) && FateOpen(w, hash, op) && NextIsThere(w, op))
      && (r.RetryLater? <==>
            || (op.comm.Keccak? == w.d.keccakMode && status != Expired && op.stored.StorageError?)
            || (Missing(w, hash, op) && FateOpen(w, hash, op) && !NextIsThere(w, op)))
      && (op.stored.Found? && op.comm.Keccak? == w.d.keccakMode && status != Expired ==> r == Input(op.stored.data))
  {
    hide TrackerInv, LogStatus, ExpireChallenges, LoadEvents, VerifiedInputs;
    StatusMatchesLog(w.d.tracker, hash, w.log, w.d.challengeOrigin, w.pruned, w.d.challengeOrigin, (op.comm, op.inclusion.number));
  }

  /** A stall ends in an answer: with no slack left, a read of missing data is decided. */
  lemma StallEnds(w: World, hash: HashFn, op: DaOp)
    requires DaInv(w, hash) && w.d.tracker.WellFormed() && op.OpRead? && op.stored.NotFound?
    requires Slack(w.d, op.inclusion.number) <= 0
    ensures var r := GetInput(w.d, hash, op.comm, op.inclusion, op.stored, op.next).1;
      r.ExpiredChallenge? || r.Input? || r.MissingPastWindow?
  {
    hide DaInv, LookAhead;
    if w.d.tracker.StatusOf((op.comm, op.inclusion.number)) == Active {
      OpenChallengeEnds(w, hash, (op.comm, op.inclusion.number));
    }
  }
}
