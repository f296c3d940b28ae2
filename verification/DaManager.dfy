/**
 The alt-DA manager as a value: two L1 origins driving the challenge tracker.
 L1 and the DA storage are parameters of each call.
 */
module DaManager {
  import opened BatcherTypes
  import opened Commitments
  import opened DaState
  import opened DaLog

  datatype Da = Da(
    keccakMode: bool,
    tracker: Tracker,
    challengeOrigin: nat,
    commitmentOrigin: nat,
    finalizedHead: BlockRef,
    l1FinalizedHead: BlockRef,
    resetting: bool)

  function NewDa(keccakMode: bool, challengeWindow: nat, resolveWindow: nat): Da {
    Da(keccakMode, NewTracker(challengeWindow, resolveWindow), 0, 0, BlockRef(0, 0), BlockRef(0, 0), false)
  }

  /** The events of one L1 block, or a failure to fetch them. */
  type Fetched = Option<seq<Event>>

  /** Without a challenge contract there is nothing to fetch. */
  function EventsOf(d: Da, fetched: Fetched): Fetched {
    if d.keccakMode then fetched else Some([])
  }

  datatype Advance = Advanced | FetchFailed | ReorgRequired

  function AdvanceChallengeOrigin(d: Da, hash: HashFn, at: nat, fetched: Fetched): (Da, Advance)
    requires d.tracker.WellFormed()
  {
    if at <= d.challengeOrigin then (d, Advanced)
    else if EventsOf(d, fetched).None? then (d, FetchFailed)
    else
      (d.(tracker := ExpireChallenges(LoadEvents(d.tracker, hash, at, EventsOf(d, fetched).value), at),
          challengeOrigin := at), Advanced)
  }

  function AdvanceCommitmentOrigin(d: Da, at: nat): (Da, Advance)
    requires d.tracker.WellFormed()
  {
    if at <= d.commitmentOrigin then (d, Advanced)
    else
      var (tracker, reorg) := ExpireCommitments(d.tracker, at);
      if reorg then (d.(tracker := tracker, resetting := true), ReorgRequired)
      else (d.(tracker := tracker, commitmentOrigin := at), Advanced)
  }

  /** `aged` is the L1 block one challenge window before the finalized one, if it can be fetched. */
  function UpdateFinalizedFromL1(d: Da, aged: Option<BlockRef>): (Da, Advance) {
    if d.l1FinalizedHead.number < d.tracker.challengeWindow then (d, Advanced)
    else if aged.None? then (d, FetchFailed)
    else (d.(finalizedHead := aged.value), Advanced)
  }

  function AdvanceL1Origin(d: Da, hash: HashFn, at: nat, fetched: Fetched, aged: Option<BlockRef>): (Da, Advance)
    requires d.tracker.WellFormed()
  {
    var (d1, r1) := AdvanceChallengeOrigin(d, hash, at, fetched);
    if r1 != Advanced then (d1, r1)
    else
      ExpireKeepsWellFormed(d, hash, at, fetched);
      var (d2, r2) := AdvanceCommitmentOrigin(d1, at);
      if r2 != Advanced then (d2, r2)
      else if d2.tracker.NoCommitments() then UpdateFinalizedFromL1(d2, aged)
      else (d2, Advanced)
  }

  lemma ExpireKeepsWellFormed(d: Da, hash: HashFn, at: nat, fetched: Fetched)
    requires d.tracker.WellFormed()
    ensures AdvanceChallengeOrigin(d, hash, at, fetched).0.tracker.WellFormed()
  {
  }

  /** A reset that follows an expired challenge keeps the challenges; one for an L1 reorg keeps nothing. */
  function Reset(d: Da, base: nat): Da {
    if d.resetting then
      d.(resetting := false, commitmentOrigin := base, tracker := ClearCommitments(d.tracker))
    else
      d.(challengeOrigin := base, commitmentOrigin := base, tracker := ResetTracker(d.tracker))
  }

  function Finalize(d: Da, l1Finalized: BlockRef): Da
    requires d.tracker.WellFormed()
  {
    var tracker := PruneTracker(d.tracker, l1Finalized.number);
    d.(l1FinalizedHead := l1Finalized, tracker := tracker, finalizedHead := tracker.lastPruned)
  }

  datatype Stored = Found(data: Bytes) | NotFound | StorageError

  datatype Read =
    | Input(data: Bytes)
    | ExpiredChallenge
    | MissingPastWindow
    | PendingChallenge
    | RetryLater

  /** The L1 block after the challenge origin, when there is one yet. */
  type NextBlock = Option<Fetched>

  function LookAhead(d: Da, hash: HashFn, next: NextBlock): (Da, Read)
    requires d.tracker.WellFormed()
  {
    if next.None? then (d, RetryLater)
    else
      var (d1, r) := AdvanceChallengeOrigin(d, hash, d.challengeOrigin + 1, next.value);
      (d1, if r == Advanced then PendingChallenge else RetryLater)
  }

  function GetInput(d: Da, hash: HashFn, comm: Comm, inclusion: BlockRef, stored: Stored, next: NextBlock): (Da, Read)
    requires d.tracker.WellFormed()
  {
    var status := d.tracker.StatusOf((comm, inclusion.number));
    if comm.Keccak? != d.keccakMode || status == Expired then (d, ExpiredChallenge)
    else
      var d1 := d.(tracker := TrackCommitment(d.tracker, comm, inclusion));
      match stored
      case Found(data) => (d1, Input(data))
      case StorageError => (d1, RetryLater)
      case NotFound =>
        if status == Uninitialized && inclusion.number + d.tracker.challengeWindow < d.challengeOrigin then
          (d1, MissingPastWindow)
        else if status != Resolved then LookAhead(d1, hash, next)
        else if comm.Generic? then (d1, MissingPastWindow)
        else (d1, Input(d.tracker.store[d.tracker.index[(comm, inclusion.number)]].input))
  }
}
