/**
 Whole runs of the alt-DA manager, alongside the log of L1 events it has seen.
 */
module DaRuns {
  import opened BatcherTypes
  import opened Commitments
  import opened DaState
  import opened DaLog
  import opened DaLogSteps
  import opened DaManager

  datatype DaOp =
    | OpAdvance(at: nat, fetched: Fetched, aged: Option<BlockRef>)
    | OpRead(comm: Comm, inclusion: BlockRef, stored: Stored, next: NextBlock)
    | OpReset(base: nat)
    | OpFinalize(l1Finalized: BlockRef)

  function Apply(d: Da, hash: HashFn, op: DaOp): Da
    requires d.tracker.WellFormed()
  {
    match op
    case OpAdvance(at, fetched, aged) => AdvanceL1Origin(d, hash, at, fetched, aged).0
    case OpRead(comm, inclusion, stored, next) => GetInput(d, hash, comm, inclusion, stored, next).0
    case OpReset(base) => Reset(d, base)
    case OpFinalize(l1Finalized) => Finalize(d, l1Finalized)
  }

  /** The manager, the events it has processed since the last L1 reorg, and how far challenges were pruned. */
  datatype World = World(d: Da, log: seq<Entry>, pruned: int)

  ghost predicate LooksAhead(d: Da, op: DaOp)
    requires d.tracker.WellFormed() && op.OpRead?
  {
    var status := d.tracker.StatusOf((op.comm, op.inclusion.number));
    && op.comm.Keccak? == d.keccakMode && op.stored.NotFound? && op.next.Some?
    && (status == Active || (status == Uninitialized && d.challengeOrigin <= op.inclusion.number + d.tracker.challengeWindow))
  }

  /** The L1 block an operation processes, if any, with its events. */
  ghost function Loaded(d: Da, op: DaOp): Option<(nat, seq<Event>)>
    requires d.tracker.WellFormed()
  {
    match op
    case OpAdvance(at, fetched, _) =>
      if d.challengeOrigin < at && EventsOf(d, fetched).Some? then Some((at, EventsOf(d, fetched).value)) else None
    case OpRead(_, _, _, next) =>
      if LooksAhead(d, op) && EventsOf(d, next.value).Some? then Some((d.challengeOrigin + 1, EventsOf(d, next.value).value))
      else None
    case _ => None
  }

  ghost function Step(w: World, hash: HashFn, op: DaOp): World
    requires w.d.tracker.WellFormed()
  {
    var loaded := Loaded(w.d, op);
    World(Apply(w.d, hash, op),
          if op.OpReset? && !w.d.resetting then []
          else if loaded.Some? then w.log + Entries(loaded.value.0, loaded.value.1)
          else w.log,
          if op.OpReset? && !w.d.resetting then -1
          else if op.OpFinalize? then PrunedTo(w.d.challengeOrigin, w.pruned, op.l1Finalized.number)
          else w.pruned)
  }

  // ---------------------------------------------------------------- the contract's discipline

  /** One event is admissible: a single challenge per key, inside its window; a resolution only while active. */
  ghost predicate EventOk(s: Tracker, hash: HashFn, log: seq<Entry>, at: nat, e: Event) {
    && Fresh(log, e)
    && (e.Challenged? ==> at <= e.block + s.challengeWindow)
    && (e.ResolvedBy? && Resolves(hash, Entry(at, e), (e.comm, e.block)) ==>
          exists n :: 0 <= n < |log| && Creates(log[n], (e.comm, e.block)) && at <= log[n].at + s.resolveWindow)
  }

  ghost predicate EventsOk(s: Tracker, hash: HashFn, log: seq<Entry>, at: nat, es: seq<Event>)
    decreases |es|
  {
    es == [] ||
    (&& EventsOk(s, hash, log, at, es[..|es| - 1])
     && EventOk(s, hash, log + Entries(at, es[..|es| - 1]), at, es[|es| - 1]))
  }

  ghost predicate Allowed(w: World, hash: HashFn, op: DaOp)
    requires w.d.tracker.WellFormed()
  {
    && (Loaded(w.d, op).Some? ==> EventsOk(w.d.tracker, hash, w.log, Loaded(w.d, op).value.0, Loaded(w.d, op).value.1))
    && (op.OpReset? && w.d.resetting ==> op.base <= w.d.challengeOrigin)
  }

  // ---------------------------------------------------------------- the invariant

  ghost predicate InWindow(s: Tracker, e: Entry) {
    e.event.Challenged? ==> e.at <= e.event.block + s.challengeWindow
  }

  /** Inputs kept from resolutions match their commitments. */
  ghost predicate VerifiedInputs(s: Tracker, hash: HashFn) {
    && (forall k :: k in s.index ==> s.index[k] < |s.store| && s.store[s.index[k]].Key() == k)
    && (forall i :: 0 <= i < |s.store| && s.store[i].status == Resolved ==> s.store[i].comm.Verify(hash, s.store[i].input))
  }

  ghost predicate DaInv(w: World, hash: HashFn) {
    && TrackerInv(w.d.tracker, hash, w.log, w.d.challengeOrigin, w.pruned, w.d.challengeOrigin)
    && w.d.commitmentOrigin <= w.d.challengeOrigin
    && (forall n :: 0 <= n < |w.log| ==> InWindow(w.d.tracker, w.log[n]) && w.log[n].at <= w.d.challengeOrigin)
    && VerifiedInputs(w.d.tracker, hash)
  }

  lemma NewDaInv(keccakMode: bool, challengeWindow: nat, resolveWindow: nat, hash: HashFn)
    ensures DaInv(World(NewDa(keccakMode, challengeWindow, resolveWindow), [], -1), hash)
  {
    NewTrackerInv(challengeWindow, resolveWindow, hash, 0);
  }

  /** Commitments are no part of what ties the challenges to the log. */
  lemma CommitmentsApart(s: Tracker, s': Tracker, hash: HashFn, log: seq<Entry>, b: nat, pruned: int, hi: nat)
    requires TrackerInv(s, hash, log, b, pruned, hi)
    requires s' == s.(commitments := s'.commitments, expiredCommitments := s'.expiredCommitments, lastPruned := s'.lastPruned)
    ensures TrackerInv(s', hash, log, b, pruned, hi)
  {
    hide UniqueCreates, ResolvedAfter, Positions;
    forall i: nat | i < |s'.store|
      ensures Mirrors(s', hash, log, i)
    {
      assert Mirrors(s, hash, log, i);
    }
  }

  lemma {:induction false} EventsFresh(s: Tracker, hash: HashFn, log: seq<Entry>, at: nat, es: seq<Event>)
    requires EventsOk(s, hash, log, at, es)
    ensures AllFresh(log, at, es)
    ensures forall i :: 0 <= i < |es| && es[i].Challenged? ==> at <= es[i].block + s.challengeWindow
    decreases |es|
  {
    hide Fresh;
    if es != [] {
      EventsFresh(s, hash, log, at, es[..|es| - 1]);
    }
  }

  lemma {:induction false} LoadVerified(s: Tracker, hash: HashFn, at: nat, es: seq<Event>)
    requires s.WellFormed() && VerifiedInputs(s, hash)
    ensures VerifiedInputs(LoadEvents(s, hash, at, es), hash)
    decreases |es|
  {
    if es != [] {
      LoadVerified(s, hash, at, es[..|es| - 1]);
    }
  }

  lemma {:induction false} LoadSettings(s: Tracker, hash: HashFn, at: nat, es: seq<Event>)
    requires s.WellFormed()
    ensures var s' := LoadEvents(s, hash, at, es);
      && s'.challengeWindow == s.challengeWindow && s'.resolveWindow == s.resolveWindow
      && s'.commitments == s.commitments && s'.expiredCommitments == s.expiredCommitments && s'.lastPruned == s.lastPruned
    decreases |es|
  {
    if es != [] {
      LoadSettings(s, hash, at, es[..|es| - 1]);
    }
  }

  lemma ExpireVerified(s: Tracker, hash: HashFn, at: nat)
    requires s.WellFormed() && VerifiedInputs(s, hash)
    ensures VerifiedInputs(ExpireChallenges(s, at), hash)
  {
  }

  /** Processing the next L1 block: load its events, then expire what its number closes. */
  ghost function NextTracker(s: Tracker, hash: HashFn, at: nat, es: seq<Event>): Tracker
    requires s.WellFormed()
  {
    ExpireChallenges(LoadEvents(s, hash, at, es), at)
  }

  lemma NextBlockStep(w: World, hash: HashFn, at: nat, es: seq<Event>)
    requires DaInv(w, hash) && w.d.challengeOrigin < at && EventsOk(w.d.tracker, hash, w.log, at, es)
    ensures var d' := w.d.(tracker := NextTracker(w.d.tracker, hash, at, es), challengeOrigin := at);
      DaInv(World(d', w.log + Entries(at, es), w.pruned), hash)
  {
    hide TrackerInv, VerifiedInputs, ExpireChallenges, LoadEvents, EventsOk;
    assert w.d.tracker.WellFormed() by { HasWellFormed(w, hash); }
    var s, b := w.d.tracker, w.d.challengeOrigin;
    EventsFresh(s, hash, w.log, at, es);
    LoadStep(s, hash, w.log, b, w.pruned, b, at, es);
    LoadVerified(s, hash, at, es);
    LoadSettings(s, hash, at, es);
    var s1 := LoadEvents(s, hash, at, es);
    ExpireStep(s1, hash, w.log + Entries(at, es), b, w.pruned, at, at);
    ExpireVerified(s1, hash, at);
    ExpireKeepsSettings(s1, at);
  }

  lemma HasWellFormed(w: World, hash: HashFn)
    requires DaInv(w, hash)
    ensures w.d.tracker.WellFormed()
  {
  }

  lemma ExpireKeepsSettings(s: Tracker, at: nat)
    requires s.WellFormed()
    ensures var s' := ExpireChallenges(s, at);
      && s'.challengeWindow == s.challengeWindow && s'.resolveWindow == s.resolveWindow
      && s'.commitments == s.commitments && s'.expiredCommitments == s.expiredCommitments && s'.lastPruned == s.lastPruned
  {
  }

  /** Anything that leaves challenges alone keeps the invariant. */
  lemma CommitmentChangeKeeps(w: World, hash: HashFn, d': Da)
    requires DaInv(w, hash) && d'.challengeOrigin == w.d.challengeOrigin && d'.commitmentOrigin <= d'.challengeOrigin
    requires d'.tracker == w.d.tracker.(commitments := d'.tracker.commitments,
                                        expiredCommitments := d'.tracker.expiredCommitments, lastPruned := d'.tracker.lastPruned)
    ensures DaInv(World(d', w.log, w.pruned), hash)
  {
    hide TrackerInv;
    CommitmentsApart(w.d.tracker, d'.tracker, hash, w.log, w.d.challengeOrigin, w.pruned, w.d.challengeOrigin);
  }

  lemma AdvanceKeeps(w: World, hash: HashFn, op: DaOp)
    requires DaInv(w, hash) && op.OpAdvance? && Allowed(w, hash, op)
    ensures DaInv(Step(w, hash, op), hash)
  {
    hide TrackerInv, VerifiedInputs, EventsOk, ExpireChallenges, LoadEvents, ExpireCommitments;
    assert w.d.tracker.WellFormed() by { HasWellFormed(w, hash); }
    var w1 := w;
    if Loaded(w.d, op).Some? {
      var es := Loaded(w.d, op).value.1;
      NextBlockStep(w, hash, op.at, es);
      w1 := World(w.d.(tracker := NextTracker(w.d.tracker, hash, op.at, es), challengeOrigin := op.at),
                  w.log + Entries(op.at, es), w.pruned);
      assert w1.d.tracker.WellFormed() by { HasWellFormed(w1, hash); }
    }
    ExpireCommitmentsOnly(w1.d.tracker, op.at);
    CommitmentChangeKeeps(w1, hash, Apply(w.d, hash, op));
  }

  /** Expiring commitments moves a prefix from one queue to the end of the other: nothing is lost or reordered. */
  lemma ExpireCommitmentsOnly(s: Tracker, at: nat)
    requires s.WellFormed()
    ensures var s' := ExpireCommitments(s, at).0;
      && s' == s.(commitments := s'.commitments, expiredCommitments := s'.expiredCommitments)
      && s'.expiredCommitments + s'.commitments == s.expiredCommitments + s.commitments
  {
    hide DueCommitments;
    var n := DueCommitments(s, s.commitments, at);
    assert s.commitments == s.commitments[..n] + s.commitments[n..];
  }

  lemma ReadKeeps(w: World, hash: HashFn, op: DaOp)
    requires DaInv(w, hash) && op.OpRead? && Allowed(w, hash, op)
    ensures DaInv(Step(w, hash, op), hash)
  {
    hide TrackerInv, VerifiedInputs, EventsOk, ExpireChallenges, LoadEvents;
    assert w.d.tracker.WellFormed() by { HasWellFormed(w, hash); }
    var d1 := w.d.(tracker := TrackCommitment(w.d.tracker, op.comm, op.inclusion));
    CommitmentChangeKeeps(w, hash, d1);
    if Loaded(w.d, op).Some? {
      var (at, es) := Loaded(w.d, op).value;
      EventsOkApart(w.d.tracker, d1.tracker, hash, w.log, at, es);
      NextBlockStep(World(d1, w.log, w.pruned), hash, at, es);
    }
  }

  lemma {:induction false} EventsOkApart(s: Tracker, s': Tracker, hash: HashFn, log: seq<Entry>, at: nat, es: seq<Event>)
    requires EventsOk(s, hash, log, at, es)
    requires s'.challengeWindow == s.challengeWindow && s'.resolveWindow == s.resolveWindow
    ensures EventsOk(s', hash, log, at, es)
    decreases |es|
  {
    hide Fresh, Creates, Resolves;
    if es != [] {
      EventsOkApart(s, s', hash, log, at, es[..|es| - 1]);
    }
  }

  lemma ResetKeeps(w: World, hash: HashFn, op: DaOp)
    requires DaInv(w, hash) && op.OpReset? && Allowed(w, hash, op)
    ensures DaInv(Step(w, hash, op), hash)
  {
    hide TrackerInv;
    assert w.d.tracker.WellFormed() by { HasWellFormed(w, hash); }
    if w.d.resetting {
      CommitmentChangeKeeps(w, hash, Apply(w.d, hash, op));
    } else {
      ResetInv(w.d.tracker, hash, op.base);
    }
  }

  lemma FinalizeKeeps(w: World, hash: HashFn, op: DaOp)
    requires DaInv(w, hash) && op.OpFinalize?
    ensures DaInv(Step(w, hash, op), hash)
  {
    hide TrackerInv;
    assert w.d.tracker.WellFormed() by { HasWellFormed(w, hash); }
    PruneStep(w.d.tracker, hash, w.log, w.d.challengeOrigin, w.pruned, w.d.challengeOrigin, op.l1Finalized.number);
  }

  lemma StepKeeps(w: World, hash: HashFn, op: DaOp)
    requires DaInv(w, hash) && Allowed(w, hash, op)
    ensures DaInv(Step(w, hash, op), hash)
  {
    hide DaInv, Allowed, Step;
    match op
    case OpAdvance(_, _, _) => AdvanceKeeps(w, hash, op);
    case OpRead(_, _, _, _) => ReadKeeps(w, hash, op);
    case OpReset(_) => ResetKeeps(w, hash, op);
    case OpFinalize(_) => FinalizeKeeps(w, hash, op);
  }

  ghost predicate Leads(w: World, hash: HashFn, ops: seq<DaOp>, w': World)
    requires DaInv(w, hash)
    decreases |ops|
  {
    if ops == [] then w' == w
    else Allowed(w, hash, ops[0]) && (StepKeeps(w, hash, ops[0]); Leads(Step(w, hash, ops[0]), hash, ops[1..], w'))
  }

  lemma {:induction false} RunKeeps(w: World, hash: HashFn, ops: seq<DaOp>, w': World)
    requires DaInv(w, hash) && Leads(w, hash, ops, w')
    ensures DaInv(w', hash)
    decreases |ops|
  {
    hide DaInv, Allowed, Step;
    if ops != [] {
      HasWellFormed(w, hash);
      StepKeeps(w, hash, ops[0]);
      RunKeeps(Step(w, hash, ops[0]), hash, ops[1..], w');
    }
  }

  ghost predicate Reaches(keccakMode: bool, challengeWindow: nat, resolveWindow: nat, hash: HashFn, ops: seq<DaOp>, w: World) {
    NewDaInv(keccakMode, challengeWindow, resolveWindow, hash);
    Leads(World(NewDa(keccakMode, challengeWindow, resolveWindow), [], -1), hash, ops, w)
  }

  /** Without a challenge contract nothing is ever challenged, so challenge keys do not meet in the map. */
  ghost predicate NothingStored(d: Da) {
    !d.keccakMode && d.tracker.challenges == [] && d.tracker.expiredChallenges == [] && d.tracker.index == map[]
  }

  lemma {:induction false} GenericRun(w: World, hash: HashFn, ops: seq<DaOp>, w': World)
    requires DaInv(w, hash) && NothingStored(w.d) && Leads(w, hash, ops, w')
    ensures NothingStored(w'.d)
    decreases |ops|
  {
    hide DaInv, Allowed, NothingStored;
    if ops != [] {
      HasWellFormed(w, hash);
      StepKeeps(w, hash, ops[0]);
      GenericStep(w, hash, ops[0]);
      hide Step;
      GenericRun(Step(w, hash, ops[0]), hash, ops[1..], w');
    }
  }

  lemma GenericBlock(d: Da, hash: HashFn, at: nat, fetched: Fetched)
    requires d.tracker.WellFormed() && NothingStored(d)
    ensures NothingStored(AdvanceChallengeOrigin(d, hash, at, fetched).0)
  {
    hide ExpireChallenges, LoadEvents;
    NoEvents(d.tracker, hash, at);
    NothingToExpire(d.tracker, at);
  }

  lemma NoEvents(s: Tracker, hash: HashFn, at: nat)
    requires s.WellFormed()
    ensures LoadEvents(s, hash, at, []) == s
  {
  }

  lemma NothingToExpire(s: Tracker, at: nat)
    requires s.WellFormed() && s.challenges == []
    ensures var s' := ExpireChallenges(s, at);
      s'.challenges == [] && s'.expiredChallenges == s.expiredChallenges && s'.index == s.index
  {
    hide MarkExpired;
    assert s.challenges[..0] == [] && s.challenges[0..] == [];
  }

  lemma GenericCommitments(d: Da, at: nat)
    requires d.tracker.WellFormed() && NothingStored(d)
    ensures NothingStored(AdvanceCommitmentOrigin(d, at).0)
  {
    hide DueCommitments;
  }

  lemma GenericAdvance(d: Da, hash: HashFn, at: nat, fetched: Fetched, aged: Option<BlockRef>)
    requires d.tracker.WellFormed() && NothingStored(d)
    ensures NothingStored(AdvanceL1Origin(d, hash, at, fetched, aged).0)
  {
    hide AdvanceChallengeOrigin, AdvanceCommitmentOrigin;
    GenericBlock(d, hash, at, fetched);
    ExpireKeepsWellFormed(d, hash, at, fetched);
    GenericCommitments(AdvanceChallengeOrigin(d, hash, at, fetched).0, at);
  }

  lemma GenericRead(d: Da, hash: HashFn, comm: Comm, inclusion: BlockRef, stored: Stored, next: NextBlock)
    requires d.tracker.WellFormed() && NothingStored(d)
    ensures NothingStored(GetInput(d, hash, comm, inclusion, stored, next).0)
  {
    hide AdvanceChallengeOrigin;
    if next.Some? {
      GenericBlock(d.(tracker := TrackCommitment(d.tracker, comm, inclusion)), hash, d.challengeOrigin + 1, next.value);
    }
  }

  lemma GenericStep(w: World, hash: HashFn, op: DaOp)
    requires w.d.tracker.WellFormed() && NothingStored(w.d)
    ensures NothingStored(Step(w, hash, op).d)
  {
    hide AdvanceL1Origin, GetInput, DueCommitments, LooksAhead;
    match op
    case OpAdvance(at, fetched, aged) => GenericAdvance(w.d, hash, at, fetched, aged);
    case OpRead(comm, inclusion, stored, next) => GenericRead(w.d, hash, comm, inclusion, stored, next);
    case _ =>
  }

  lemma GenericStoresNothing(challengeWindow: nat, resolveWindow: nat, hash: HashFn, ops: seq<DaOp>, w: World)
    requires Reaches(false, challengeWindow, resolveWindow, hash, ops, w)
    ensures w.d.tracker.index == map[]
  {
    hide DaInv, Leads;
    NewDaInv(false, challengeWindow, resolveWindow, hash);
    GenericRun(World(NewDa(false, challengeWindow, resolveWindow), [], -1), hash, ops, w);
  }

  lemma QueuesSorted(s: Tracker, hash: HashFn, log: seq<Entry>, b: nat, pruned: int, hi: nat)
    requires TrackerInv(s, hash, log, b, pruned, hi)
    ensures s.WellFormed()
    ensures var q := s.expiredChallenges + s.challenges;
      forall i, j :: 0 <= i <= j < |q| ==> s.store[q[i]].resolveEnd <= s.store[q[j]].resolveEnd
  {
    hide UniqueCreates, Positions, Mirrors, CutAt, IndexExact;
    var q := s.expiredChallenges + s.challenges;
    assert forall i :: 0 <= i < |q| ==> q[i] == Pruned(s) + i;
  }

  /**
   In every run the status of every challenge is the one the event log gives it, the challenge origin is never behind
   the commitment origin, and both challenge queues stay sorted by the ends of their windows.
   */
  lemma EveryRun(keccakMode: bool, challengeWindow: nat, resolveWindow: nat, hash: HashFn, ops: seq<DaOp>, w: World, k: Key)
    requires Reaches(keccakMode, challengeWindow, resolveWindow, hash, ops, w)
    ensures w.d.tracker.WellFormed() && w.d.commitmentOrigin <= w.d.challengeOrigin
    ensures w.d.tracker.StatusOf(k) == LogStatus(hash, w.log, k, w.d.tracker.resolveWindow, w.d.challengeOrigin, w.pruned)
    ensures var s := w.d.tracker; var q := s.expiredChallenges + s.challenges;
      forall i, j :: 0 <= i <= j < |q| ==> s.store[q[i]].resolveEnd <= s.store[q[j]].resolveEnd
  {
    hide NewDa, TrackerInv, LogStatus, VerifiedInputs, InWindow, Leads;
    NewDaInv(keccakMode, challengeWindow, resolveWindow, hash);
    RunKeeps(World(NewDa(keccakMode, challengeWindow, resolveWindow), [], -1), hash, ops, w);
    HasWellFormed(w, hash);
    QueuesSorted(w.d.tracker, hash, w.log, w.d.challengeOrigin, w.pruned, w.d.challengeOrigin);
    StatusMatchesLog(w.d.tracker, hash, w.log, w.d.challengeOrigin, w.pruned, w.d.challengeOrigin, k);
  }
}
