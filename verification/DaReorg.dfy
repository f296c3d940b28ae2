/**
 A commitment forces at most one reorg: once its challenge has expired it is
 never derived from again.
 */
module DaReorg {
  import opened BatcherTypes
  import opened Commitments
  import opened DaState
  import opened DaLog
  import opened DaLogSteps
  import opened DaManager
  import opened DaRuns
  import opened DaReads

  /** The state in which an advance expires commitments. */
  ghost function BeforeExpiry(w: World, hash: HashFn, op: DaOp): Da
    requires w.d.tracker.WellFormed() && op.OpAdvance?
  {
    AdvanceChallengeOrigin(w.d, hash, op.at, op.fetched).0
  }

  lemma BeforeExpiryInv(w: World, hash: HashFn, op: DaOp)
    requires DaInv(w, hash) && op.OpAdvance? && Allowed(w, hash, op)
    ensures w.d.tracker.WellFormed()
    ensures DaInv(World(BeforeExpiry(w, hash, op), Step(w, hash, op).log, w.pruned), hash)
  {
    hide TrackerInv, VerifiedInputs, EventsOk, ExpireChallenges, LoadEvents;
    HasWellFormed(w, hash);
    if Loaded(w.d, op).Some? {
      NextBlockStep(w, hash, op.at, Loaded(w.d, op).value.1);
    }
  }

  /** A challenge whose window is over is resolved or expired. */
  lemma ClosedIsSettled(w: World, hash: HashFn, k: Key)
    requires DaInv(w, hash) && w.d.tracker.WellFormed() && k in w.d.tracker.index
    requires w.d.tracker.store[w.d.tracker.index[k]].resolveEnd <= w.d.challengeOrigin
    ensures w.d.tracker.StatusOf(k) == Resolved || w.d.tracker.StatusOf(k) == Expired
  {
    hide Mirrors, UniqueCreates, SortedByEnd;
  }

  /** Whenever a reorg is asked for, it is because of commitments whose challenges have already expired. */
  lemma ReorgMeansExpired(w: World, hash: HashFn, op: DaOp)
    requires DaInv(w, hash) && op.OpAdvance? && Allowed(w, hash, op) && w.d.tracker.WellFormed()
    requires AdvanceL1Origin(w.d, hash, op.at, op.fetched, op.aged).1 == ReorgRequired
    ensures var s := BeforeExpiry(w, hash, op).tracker;
      var d' := Step(w, hash, op).d;
      && s.WellFormed() && d'.tracker.WellFormed() && d'.resetting
      && (exists i :: 0 <= i < DueCommitments(s, s.commitments, op.at) && s.Unresolved(s.commitments[i]))
      && (forall i :: 0 <= i < DueCommitments(s, s.commitments, op.at) && s.Unresolved(s.commitments[i]) ==>
            d'.tracker.StatusOf(s.commitments[i].Key()) == Expired)
  {
    hide TrackerInv, VerifiedInputs, AdvanceChallengeOrigin;
    BeforeExpiryInv(w, hash, op);
    var d1 := BeforeExpiry(w, hash, op);
    var w1 := World(d1, Step(w, hash, op).log, w.pruned);
    HasWellFormed(w1, hash);
    ChallengeOriginReached(w.d, hash, op.at, op.fetched);
    var s := d1.tracker;
    forall i | 0 <= i < DueCommitments(s, s.commitments, op.at) && s.Unresolved(s.commitments[i])
      ensures s.StatusOf(s.commitments[i].Key()) == Expired
    {
      ClosedIsSettled(w1, hash, s.commitments[i].Key());
    }
  }

  lemma ChallengeOriginReached(d: Da, hash: HashFn, at: nat, fetched: Fetched)
    requires d.tracker.WellFormed()
    ensures AdvanceChallengeOrigin(d, hash, at, fetched).1 != ReorgRequired
    ensures AdvanceChallengeOrigin(d, hash, at, fetched).1 == Advanced ==>
      at <= AdvanceChallengeOrigin(d, hash, at, fetched).0.challengeOrigin
  {
  }

  // ---------------------------------------------------------------- expired for good

  /** The log says: challenged at entry `n`, never resolved, window over, not pruned. */
  ghost predicate ExpiredAt(hash: HashFn, log: seq<Entry>, k: Key, resolveWindow: nat, b: nat, pruned: int, n: nat) {
    && n < |log| && Creates(log[n], k)
    && pruned < log[n].at + resolveWindow <= b
    && !ResolvedAfter(hash, log, k, n)
  }

  lemma ExpiredInLog(hash: HashFn, log: seq<Entry>, k: Key, resolveWindow: nat, b: nat, pruned: int) returns (n: nat)
    requires LogStatus(hash, log, k, resolveWindow, b, pruned) == Expired && UniqueCreates(log)
    ensures ExpiredAt(hash, log, k, resolveWindow, b, pruned, n)
  {
    n :| 0 <= n < |log| && Creates(log[n], k);
    TheCreate(log, k, n);
  }

  lemma ExpiredFromLog(hash: HashFn, log: seq<Entry>, k: Key, resolveWindow: nat, b: nat, pruned: int, n: nat)
    requires ExpiredAt(hash, log, k, resolveWindow, b, pruned, n) && UniqueCreates(log)
    ensures LogStatus(hash, log, k, resolveWindow, b, pruned) == Expired
  {
    TheCreate(log, k, n);
  }

  /** Later events, resolutions being accepted inside their window only, do not revive an expired challenge. */
  lemma {:induction false} ExpiredStable(s: Tracker, hash: HashFn, log: seq<Entry>, k: Key, b: nat, pruned: int, n: nat, at: nat, es: seq<Event>)
    requires ExpiredAt(hash, log, k, s.resolveWindow, b, pruned, n) && UniqueCreates(log)
    requires b < at && EventsOk(s, hash, log, at, es)
    ensures UniqueCreates(log + Entries(at, es))
    ensures ExpiredAt(hash, log + Entries(at, es), k, s.resolveWindow, b, pruned, n)
    decreases |es|
  {
    hide UniqueCreates, ResolvedAfter, Positions, Fresh, LogStatus;
    if es == [] {
      assert log + Entries(at, es) == log;
    } else {
      var front, last := es[..|es| - 1], es[|es| - 1];
      ExpiredStable(s, hash, log, k, b, pruned, n, at, front);
      var log1 := log + Entries(at, front);
      assert log + Entries(at, es) == log1 + [Entry(at, last)];
      FreshUnique(log1, Entry(at, last));
      LogExtended(hash, log1, Entry(at, last));
      if Resolves(hash, Entry(at, last), k) {
        TheCreate(log1, k, n);
        assert false;
      }
    }
  }

  /** The challenge against `k` has expired and no tracked commitment is the one it challenged. */
  ghost predicate Quarantined(d: Da, k: Key)
    requires d.tracker.WellFormed()
  {
    && d.tracker.StatusOf(k) == Expired
    && (forall c :: Tracks(d.tracker, c) ==> c.Key() != k)
  }

  /** Neither a reset for an L1 reorg nor a finalization past the end of the challenge's window. */
  ghost predicate Spares(w: World, op: DaOp, k: Key)
    requires w.d.tracker.WellFormed()
  {
    && (op.OpReset? ==> w.d.resetting)
    && (op.OpFinalize? && k in w.d.tracker.index ==>
          op.l1Finalized.number < w.d.tracker.store[w.d.tracker.index[k]].resolveEnd)
  }

  /** Reading a quarantined commitment skips it and tracks nothing. */
  lemma ReadQuarantined(d: Da, hash: HashFn, comm: Comm, inclusion: BlockRef, stored: Stored, next: NextBlock)
    requires d.tracker.WellFormed() && Quarantined(d, (comm, inclusion.number))
    ensures GetInput(d, hash, comm, inclusion, stored, next) == (d, ExpiredChallenge)
  {
  }

  lemma ExpiredStep(w: World, hash: HashFn, op: DaOp, k: Key)
    requires DaInv(w, hash) && w.d.tracker.WellFormed() && Allowed(w, hash, op)
    requires w.d.tracker.StatusOf(k) == Expired && Spares(w, op, k)
    ensures Step(w, hash, op).d.tracker.WellFormed() && Step(w, hash, op).d.tracker.StatusOf(k) == Expired
  {
    hide UniqueCreates, ResolvedAfter, Positions, LogStatus, EventsOk, Apply, VerifiedInputs, QueuesInOrder, SortedByEnd, CutAt;
    var w' := Step(w, hash, op);
    StepKeeps(w, hash, op);
    StepSettings(w, hash, op);
    var s, b := w.d.tracker, w.d.challengeOrigin;
    StatusMatchesLog(s, hash, w.log, b, w.pruned, b, k);
    var n := ExpiredInLog(hash, w.log, k, s.resolveWindow, b, w.pruned);
    EndOf(w, hash, k, n);
    if Loaded(w.d, op).Some? {
      var (at, es) := Loaded(w.d, op).value;
      ExpiredStable(s, hash, w.log, k, b, w.pruned, n, at, es);
    }
    ExpiredFromLog(hash, w'.log, k, s.resolveWindow, w'.d.challengeOrigin, w'.pruned, n);
    StatusMatchesLog(w'.d.tracker, hash, w'.log, w'.d.challengeOrigin, w'.pruned, w'.d.challengeOrigin, k);
  }

  /** The tracked end of a challenge's window is the one in the log. */
  lemma EndOf(w: World, hash: HashFn, k: Key, n: nat)
    requires DaInv(w, hash) && w.d.tracker.WellFormed() && n < |w.log| && Creates(w.log[n], k) && k in w.d.tracker.index
    ensures w.d.tracker.store[w.d.tracker.index[k]].resolveEnd == w.log[n].at + w.d.tracker.resolveWindow
  {
    hide ResolvedAfter, Positions, SortedByEnd, CutAt;
    var i := w.d.tracker.index[k];
    assert Mirrors(w.d.tracker, hash, w.log, i);
    TheCreate(w.log, k, n);
  }

  lemma QuarantineStep(w: World, hash: HashFn, op: DaOp, k: Key)
    requires DaInv(w, hash) && w.d.tracker.WellFormed() && Allowed(w, hash, op)
    requires Quarantined(w.d, k) && Spares(w, op, k)
    ensures Step(w, hash, op).d.tracker.WellFormed() && Quarantined(Step(w, hash, op).d, k)
  {
    hide DaInv, Allowed, Step, Tracks;
    ExpiredStep(w, hash, op, k);
    forall c | Tracks(Step(w, hash, op).d.tracker, c)
      ensures c.Key() != k
    {
      CommitmentsFrom(w, hash, op, c);
    }
  }

  ghost predicate Tracks(s: Tracker, c: Commitment) {
    c in s.commitments || c in s.expiredCommitments
  }

  lemma AdvanceTracks(d: Da, hash: HashFn, at: nat, fetched: Fetched, aged: Option<BlockRef>, c: Commitment)
    requires d.tracker.WellFormed() && Tracks(AdvanceL1Origin(d, hash, at, fetched, aged).0.tracker, c)
    ensures Tracks(d.tracker, c)
  {
    hide AdvanceChallengeOrigin, AdvanceCommitmentOrigin;
    AdvanceCommitments(d, hash, at, fetched);
    var (d1, r) := AdvanceChallengeOrigin(d, hash, at, fetched);
    if r == Advanced {
      ExpireKeepsWellFormed(d, hash, at, fetched);
      CommitmentAdvanceTracks(d1, at, c);
    }
  }

  lemma CommitmentAdvanceTracks(d: Da, at: nat, c: Commitment)
    requires d.tracker.WellFormed()
    ensures Tracks(AdvanceCommitmentOrigin(d, at).0.tracker, c) ==> Tracks(d.tracker, c)
  {
    hide DueCommitments;
  }

  lemma ReadTracks(d: Da, hash: HashFn, comm: Comm, inclusion: BlockRef, stored: Stored, next: NextBlock, c: Commitment)
    requires d.tracker.WellFormed() && Tracks(GetInput(d, hash, comm, inclusion, stored, next).0.tracker, c)
    ensures || Tracks(d.tracker, c)
            || (&& c == Commitment(comm, inclusion, inclusion.number + d.tracker.challengeWindow)
                && d.tracker.StatusOf(c.Key()) != Expired)
  {
    hide AdvanceChallengeOrigin;
    if next.Some? {
      AdvanceCommitments(d.(tracker := TrackCommitment(d.tracker, comm, inclusion)), hash, d.challengeOrigin + 1, next.value);
    }
  }

  /** Every commitment tracked after a step was tracked before it, or is the one just read. */
  lemma CommitmentsFrom(w: World, hash: HashFn, op: DaOp, c: Commitment)
    requires w.d.tracker.WellFormed() && Tracks(Step(w, hash, op).d.tracker, c)
    ensures || Tracks(w.d.tracker, c)
            || (&& op.OpRead? && c == Commitment(op.comm, op.inclusion, op.inclusion.number + w.d.tracker.challengeWindow)
                && w.d.tracker.StatusOf(c.Key()) != Expired)
  {
    hide AdvanceL1Origin, GetInput, DueCommitments, DueChallenges;
    match op
    case OpAdvance(at, fetched, aged) =>
      AdvanceTracks(w.d, hash, at, fetched, aged, c);
    case OpRead(comm, inclusion, stored, next) =>
      ReadTracks(w.d, hash, comm, inclusion, stored, next, c);
    case _ =>
  }

  lemma AdvanceCommitments(d: Da, hash: HashFn, at: nat, fetched: Fetched)
    requires d.tracker.WellFormed()
    ensures var d' := AdvanceChallengeOrigin(d, hash, at, fetched).0;
      && d'.tracker.commitments == d.tracker.commitments && d'.tracker.expiredCommitments == d.tracker.expiredCommitments
      && d'.tracker.lastPruned == d.tracker.lastPruned
  {
    hide ExpireChallenges, LoadEvents;
    if EventsOf(d, fetched).Some? {
      NextSettings(d.tracker, hash, at, EventsOf(d, fetched).value);
    }
  }

  ghost predicate AlwaysSpares(w: World, hash: HashFn, ops: seq<DaOp>, k: Key)
    requires DaInv(w, hash)
    decreases |ops|
  {
    ops == [] ||
    (HasWellFormed(w, hash);
     && Spares(w, ops[0], k)
     && (Allowed(w, hash, ops[0]) ==> (StepKeeps(w, hash, ops[0]); AlwaysSpares(Step(w, hash, ops[0]), hash, ops[1..], k))))
  }

  /**
   Once a reset has followed the reorg its expired challenge asked for, a commitment stays out for every later run:
   each read of it answers that the challenge expired, and it is never tracked, so it cannot ask for a second reorg.
   */
  lemma {:induction false} OneReorgPerCommitment(w: World, hash: HashFn, ops: seq<DaOp>, w': World, k: Key)
    requires DaInv(w, hash) && w.d.tracker.WellFormed() && Quarantined(w.d, k)
    requires Leads(w, hash, ops, w') && AlwaysSpares(w, hash, ops, k)
    ensures w'.d.tracker.WellFormed() && Quarantined(w'.d, k)
    decreases |ops|
  {
    hide DaInv, Allowed, Step, Quarantined, Spares;
    if ops != [] {
      StepKeeps(w, hash, ops[0]);
      QuarantineStep(w, hash, ops[0], k);
      OneReorgPerCommitment(Step(w, hash, ops[0]), hash, ops[1..], w', k);
    }
  }

  /** The reset after a reorg puts every commitment whose challenge expired in quarantine. */
  lemma ResetQuarantines(d: Da, base: nat, k: Key)
    requires d.tracker.WellFormed() && d.resetting && d.tracker.StatusOf(k) == Expired
    ensures Reset(d, base).tracker.WellFormed() && Quarantined(Reset(d, base), k)
  {
  }

  /** The state a reset leaves behind after an advance that asked for a reorg. */
  ghost function AfterReset(w: World, hash: HashFn, op: DaOp, base: nat): (w': World)
    requires DaInv(w, hash) && w.d.tracker.WellFormed() && op.OpAdvance? && Allowed(w, hash, op)
    requires AdvanceL1Origin(w.d, hash, op.at, op.fetched, op.aged).1 == ReorgRequired
    requires base <= Step(w, hash, op).d.challengeOrigin
    ensures DaInv(w', hash)
  {
    StepKeeps(w, hash, op);
    HasWellFormed(Step(w, hash, op), hash);
    StepKeeps(Step(w, hash, op), hash, OpReset(base));
    Step(Step(w, hash, op), hash, OpReset(base))
  }

  /**
   From the reorg on: whichever commitment asked for it is skipped by every read, and not tracked, in every run that
   follows the reset, until an L1 reorg or a finalization past its challenge.
   */
  lemma ReorgHappensOnce(w: World, hash: HashFn, op: DaOp, base: nat, ops: seq<DaOp>, w': World, i: nat,
                         inclusion: BlockRef, stored: Stored, next: NextBlock)
    requires DaInv(w, hash) && w.d.tracker.WellFormed() && op.OpAdvance? && Allowed(w, hash, op)
    requires AdvanceL1Origin(w.d, hash, op.at, op.fetched, op.aged).1 == ReorgRequired
    requires base <= Step(w, hash, op).d.challengeOrigin
    requires var s := BeforeExpiry(w, hash, op).tracker;
      s.WellFormed() && i < DueCommitments(s, s.commitments, op.at) && s.Unresolved(s.commitments[i])
    requires var c := BeforeExpiry(w, hash, op).tracker.commitments[i];
      && inclusion.number == c.inclusion.number
      && Leads(AfterReset(w, hash, op, base), hash, ops, w')
      && AlwaysSpares(AfterReset(w, hash, op, base), hash, ops, c.Key())
    ensures var c := BeforeExpiry(w, hash, op).tracker.commitments[i];
      && w'.d.tracker.WellFormed() && !Tracks(w'.d.tracker, c)
      && GetInput(w'.d, hash, c.comm, inclusion, stored, next) == (w'.d, ExpiredChallenge)
  {
    hide DaInv, Allowed, AdvanceL1Origin, DueCommitments, BeforeExpiry, GetInput, Tracker.Unresolved;
    var c := BeforeExpiry(w, hash, op).tracker.commitments[i];
    var w1, w2 := Step(w, hash, op), AfterReset(w, hash, op, base);
    ReorgMeansExpired(w, hash, op);
    assert w2.d == Reset(w1.d, base);
    ResetQuarantines(w1.d, base, c.Key());
    OneReorgPerCommitment(w2, hash, ops, w', c.Key());
    ReadQuarantined(w'.d, hash, c.comm, inclusion, stored, next);
  }

  // ---------------------------------------------------------------- advancing and resetting

  /** A commitment due by block `at` has an unresolved challenge. */
  ghost predicate DueUnresolved(s: Tracker, at: nat)
    requires s.WellFormed()
  {
    exists i :: 0 <= i < DueCommitments(s, s.commitments, at) && s.Unresolved(s.commitments[i])
  }

  /** An advance to block `at`: which answer it gives, and where it leaves both origins and the head. */
  lemma AdvanceExact(d: Da, hash: HashFn, at: nat, fetched: Fetched, aged: Option<BlockRef>)
    requires d.tracker.WellFormed()
    ensures var (d', r) := AdvanceL1Origin(d, hash, at, fetched, aged);
      var d1 := AdvanceChallengeOrigin(d, hash, at, fetched).0;
      var lost := d.challengeOrigin < at && d.keccakMode && fetched.None?;
      && d1.tracker.WellFormed()
      && (lost ==> d' == d && r == FetchFailed)
      && (!lost ==>
            && d'.challengeOrigin == (if d.challengeOrigin < at then at else d.challengeOrigin)
            && (r == ReorgRequired <==> d.commitmentOrigin < at && DueUnresolved(d1.tracker, at))
            && (r == ReorgRequired ==> d'.resetting && d'.commitmentOrigin == d.commitmentOrigin && d'.finalizedHead == d.finalizedHead)
            && (r != ReorgRequired ==>
                  var aging := d'.tracker.NoCommitments() && d.tracker.challengeWindow <= d.l1FinalizedHead.number;
                  && d'.resetting == d.resetting
                  && d'.commitmentOrigin == (if d.commitmentOrigin < at then at else d.commitmentOrigin)
                  && d'.finalizedHead == (if aging && aged.Some? then aged.value else d.finalizedHead)
                  && (r == FetchFailed <==> aging && aged.None?)))
  {
    hide AdvanceChallengeOrigin, AdvanceCommitmentOrigin, DueUnresolved;
    ExpireKeepsWellFormed(d, hash, at, fetched);
    AdvanceMovesOn(d, hash, at, fetched);
    CommitmentAdvanceMovesOn(AdvanceChallengeOrigin(d, hash, at, fetched).0, at);
    AdvanceApart(d, hash, at, fetched);
    CommitmentAdvanceExact(AdvanceChallengeOrigin(d, hash, at, fetched).0, at);
  }

  lemma AdvanceApart(d: Da, hash: HashFn, at: nat, fetched: Fetched)
    requires d.tracker.WellFormed()
    ensures var (d', r) := AdvanceChallengeOrigin(d, hash, at, fetched);
      && d'.commitmentOrigin == d.commitmentOrigin && d'.resetting == d.resetting
      && d'.finalizedHead == d.finalizedHead && d'.l1FinalizedHead == d.l1FinalizedHead
      && (r == FetchFailed <==> d.challengeOrigin < at && d.keccakMode && fetched.None?)
      && (r == Advanced || r == FetchFailed)
      && (r == FetchFailed ==> d' == d)
      && (r == Advanced ==> d'.challengeOrigin == if d.challengeOrigin < at then at else d.challengeOrigin)
  {
    hide ExpireChallenges, LoadEvents;
  }

  lemma CommitmentAdvanceExact(d: Da, at: nat)
    requires d.tracker.WellFormed()
    ensures var (d', r) := AdvanceCommitmentOrigin(d, at);
      && d'.challengeOrigin == d.challengeOrigin && d'.finalizedHead == d.finalizedHead && d'.l1FinalizedHead == d.l1FinalizedHead
      && (r == ReorgRequired <==> d.commitmentOrigin < at && DueUnresolved(d.tracker, at))
      && (r == ReorgRequired || r == Advanced)
      && (r == ReorgRequired ==> d'.resetting && d'.commitmentOrigin == d.commitmentOrigin)
      && (r == Advanced ==> d'.resetting == d.resetting
                            && d'.commitmentOrigin == if d.commitmentOrigin < at then at else d.commitmentOrigin)
  {
    hide DueCommitments;
  }

  /** A reset for an L1 reorg starts afresh at the base; one that follows a reorg request forgets the commitments only. */
  lemma ResetExact(d: Da, base: nat)
    ensures !d.resetting ==>
      Reset(d, base) == NewDa(d.keccakMode, d.tracker.challengeWindow, d.tracker.resolveWindow)
        .(challengeOrigin := base, commitmentOrigin := base, finalizedHead := d.finalizedHead, l1FinalizedHead := d.l1FinalizedHead,
          tracker := NewTracker(d.tracker.challengeWindow, d.tracker.resolveWindow).(lastPruned := d.tracker.lastPruned))
    ensures d.resetting ==>
      && Reset(d, base).commitmentOrigin == base && !Reset(d, base).resetting
      && Reset(d, base) == d.(commitmentOrigin := base, resetting := false,
                              tracker := d.tracker.(commitments := [], expiredCommitments := []))
  {
  }
}
