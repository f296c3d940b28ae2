/**
 The care that keeps challenges from being forgotten, operation by operation, and
 what it buys: in a careful run every commitment dropped as final is settled.
 */
module DaCare {
  import opened Commitments
  import opened DaState
  import opened DaLog
  import opened DaLogSteps
  import opened DaManager
  import opened DaRuns
  import opened DaReads
  import opened DaReorg
  import opened DaFinality

  /** No challenge against a tracked commitment is forgotten. What asked for a reorg is about to be cleared. */
  ghost predicate Clean(w: World, hash: HashFn) {
    && (forall c :: c in w.d.tracker.commitments ==> !ForgottenNow(w, hash, c.Key()))
    && (!w.d.resetting ==> forall c :: c in w.d.tracker.expiredCommitments ==> !ForgottenNow(w, hash, c.Key()))
  }

  ghost predicate FinalInv(w: World, hash: HashFn) {
    PromptInv(w, hash) && Clean(w, hash)
  }

  /** Its challenge, if it has one, is resolved, still open, or ends after block `f`. */
  ghost predicate SparesChallenge(d: Da, c: Commitment, f: nat)
    requires d.tracker.WellFormed()
  {
    d.tracker.Unresolved(c) ==>
      var end := d.tracker.store[d.tracker.index[c.Key()]].resolveEnd; f < end || d.challengeOrigin < end
  }

  /** Finalizing block `f` prunes no unresolved challenge whose commitment is still active. */
  ghost predicate ForgetsNone(d: Da, f: nat)
    requires d.tracker.WellFormed()
  {
    forall c :: c in d.tracker.commitments ==> SparesChallenge(d, c, f)
  }

  /** A read records its commitment, unless the commitment is of the wrong kind or its challenge has expired. */
  ghost predicate Records(d: Da, op: DaOp)
    requires d.tracker.WellFormed() && op.OpRead?
  {
    op.comm.Keccak? == d.keccakMode && d.tracker.StatusOf((op.comm, op.inclusion.number)) != Expired
  }

  /** A commitment whose unresolved challenge was pruned is not recorded. */
  ghost predicate RecordsKnown(w: World, hash: HashFn, op: DaOp)
    requires w.d.tracker.WellFormed() && op.OpRead?
  {
    Records(w.d, op) ==> !ForgottenNow(w, hash, (op.comm, op.inclusion.number))
  }

  ghost predicate Careful(w: World, hash: HashFn, op: DaOp)
    requires w.d.tracker.WellFormed()
  {
    && Prompt(w, hash, op)
    && (op.OpFinalize? ==> ForgetsNone(w.d, op.l1Finalized.number))
    && (op.OpRead? ==> RecordsKnown(w, hash, op))
  }

  // ---------------------------------------------------------------- the care is exact

  /** The next block's events leave every challenge as forgotten as it was. */
  lemma NextBlockClean(w: World, hash: HashFn, k: Key, at: nat, es: seq<Event>)
    requires DaInv(w, hash) && w.d.challengeOrigin < at && EventsOk(w.d.tracker, hash, w.log, at, es)
    ensures Forgotten(hash, w.log + Entries(at, es), k, w.d.tracker.resolveWindow, w.pruned) <==> ForgottenNow(w, hash, k)
  {
    hide DaInv, EventsOk, Forgotten;
    PrunedBehind(w, hash);
    if ForgottenNow(w, hash, k) {
      ForgottenStable(w, hash, k, at, es);
    } else {
      UnforgottenStable(hash, w.log, k, w.d.tracker.resolveWindow, w.pruned, at, es);
    }
  }

  /** Nothing but a finalization or an L1 reorg changes what is forgotten. */
  lemma SameForgotten(w: World, hash: HashFn, op: DaOp, k: Key)
    requires DaInv(w, hash) && w.d.tracker.WellFormed() && Allowed(w, hash, op)
    requires op.OpAdvance? || op.OpRead?
    ensures ForgottenNow(Step(w, hash, op), hash, k) <==> ForgottenNow(w, hash, k)
  {
    hide DaInv, Apply, EventsOk, Forgotten;
    StepSettings(w, hash, op);
    if Loaded(w.d, op).Some? {
      NextBlockClean(w, hash, k, Loaded(w.d, op).value.0, Loaded(w.d, op).value.1);
    }
  }

  lemma AdvanceClean(w: World, hash: HashFn, op: DaOp)
    requires FinalInv(w, hash) && w.d.tracker.WellFormed() && op.OpAdvance? && Prompt(w, hash, op)
    ensures Clean(Step(w, hash, op), hash)
  {
    hide PromptInv, Step, ForgottenNow, Allowed;
    assert DaInv(w, hash) by { PromptHasInv(w, hash); }
    var w' := Step(w, hash, op);
    forall c | Tracks(w'.d.tracker, c)
      ensures !ForgottenNow(w', hash, c.Key())
    {
      CommitmentsFrom(w, hash, op, c);
      SameForgotten(w, hash, op, c.Key());
    }
  }

  lemma PromptHasInv(w: World, hash: HashFn)
    requires PromptInv(w, hash)
    ensures DaInv(w, hash)
  {
  }

  /** A read keeps challenges from being forgotten if and only if it records no commitment that has one forgotten. */
  lemma ReadExact(w: World, hash: HashFn, op: DaOp)
    requires FinalInv(w, hash) && w.d.tracker.WellFormed() && op.OpRead? && Prompt(w, hash, op)
    ensures FinalInv(Step(w, hash, op), hash) <==> RecordsKnown(w, hash, op)
  {
    hide PromptInv, Step, ForgottenNow, Allowed;
    assert DaInv(w, hash) by { PromptHasInv(w, hash); }
    ReadPrompt(w, hash, op);
    var w' := Step(w, hash, op);
    var k := (op.comm, op.inclusion.number);
    SameForgotten(w, hash, op, k);
    if Records(w.d, op) {
      Recorded(w, hash, op);
    }
    forall c | Tracks(w'.d.tracker, c) && RecordsKnown(w, hash, op)
      ensures !ForgottenNow(w', hash, c.Key())
    {
      ReadCommitments(w, hash, op, c);
      SameForgotten(w, hash, op, c.Key());
    }
  }

  lemma Recorded(w: World, hash: HashFn, op: DaOp)
    requires w.d.tracker.WellFormed() && op.OpRead? && Records(w.d, op)
    ensures var c := Commitment(op.comm, op.inclusion, op.inclusion.number + w.d.tracker.challengeWindow);
      c in Step(w, hash, op).d.tracker.commitments
  {
    hide ExpireChallenges, LoadEvents;
    var d1 := w.d.(tracker := TrackCommitment(w.d.tracker, op.comm, op.inclusion));
    if Loaded(w.d, op).Some? {
      NextSettings(d1.tracker, hash, Loaded(w.d, op).value.0, Loaded(w.d, op).value.1);
    }
  }

  /** What is tracked after a read was tracked before it, or is what the read recorded. */
  lemma ReadCommitments(w: World, hash: HashFn, op: DaOp, c: Commitment)
    requires w.d.tracker.WellFormed() && op.OpRead? && Tracks(Step(w, hash, op).d.tracker, c)
    ensures Tracks(w.d.tracker, c) || (Records(w.d, op) && c.Key() == (op.comm, op.inclusion.number))
    ensures Step(w, hash, op).d.resetting == w.d.resetting
  {
    hide ExpireChallenges, LoadEvents;
    var d1 := w.d.(tracker := TrackCommitment(w.d.tracker, op.comm, op.inclusion));
    if Loaded(w.d, op).Some? {
      NextSettings(d1.tracker, hash, Loaded(w.d, op).value.0, Loaded(w.d, op).value.1);
    }
  }

  /** Finalizing forgets the challenge of a commitment exactly when it prunes it unresolved. */
  lemma FinalizeForgets(w: World, hash: HashFn, f: nat, c: Commitment)
    requires DaInv(w, hash) && w.d.tracker.WellFormed() && !ForgottenNow(w, hash, c.Key())
    ensures Forgotten(hash, w.log, c.Key(), w.d.tracker.resolveWindow, PrunedTo(w.d.challengeOrigin, w.pruned, f))
      <==> !SparesChallenge(w.d, c, f)
  {
    hide TrackerInv, VerifiedInputs, ResolvedAfter;
    if c.Key() in w.d.tracker.index {
      var n := IndexedInLog(w, hash, c.Key());
      OnlyCreate(w, hash, c.Key(), n);
    } else if !Challengeless(w.log, c.Key()) {
      var n: nat :| n < |w.log| && Creates(w.log[n], c.Key());
      OnlyCreate(w, hash, c.Key(), n);
      GoneMeansPruned(w, hash, c.Key(), n);
    }
  }

  /** A finalization keeps challenges from being forgotten if and only if it prunes none unresolved of an active commitment. */
  lemma FinalizeExact(w: World, hash: HashFn, op: DaOp)
    requires FinalInv(w, hash) && w.d.tracker.WellFormed() && op.OpFinalize? && Prompt(w, hash, op)
    ensures FinalInv(Step(w, hash, op), hash) <==> ForgetsNone(w.d, op.l1Finalized.number)
  {
    hide DaInv, Settled, Forgotten, Finalize, Allowed, SparesChallenge;
    var w', f := Step(w, hash, op), op.l1Finalized.number;
    FinalizePrompt(w, hash, op);
    HeadReported(w.d, op.l1Finalized);
    FinalizeSettings(w.d, op.l1Finalized);
    forall c | c in w.d.tracker.commitments
      ensures ForgottenNow(w', hash, c.Key()) <==> !SparesChallenge(w.d, c, f)
    {
      FinalizeForgets(w, hash, f, c);
    }
    forall c | c in w'.d.tracker.expiredCommitments
      ensures !ForgottenNow(w', hash, c.Key())
    {
      assert c in w.d.tracker.expiredCommitments && SettledNow(w, hash, c);
      ForgottenUnsettled(w, hash, c, w'.pruned, w.d.challengeOrigin);
    }
  }

  lemma FinalizeSettings(d: Da, l1Finalized: BlockRef)
    requires d.tracker.WellFormed()
    ensures Finalize(d, l1Finalized).tracker.resolveWindow == d.tracker.resolveWindow
    ensures Finalize(d, l1Finalized).resetting == d.resetting
  {
    hide DueChallenges, DueCommitments;
  }

  lemma ResetClean(w: World, hash: HashFn, op: DaOp)
    requires w.d.tracker.WellFormed() && op.OpReset?
    ensures Clean(Step(w, hash, op), hash)
  {
  }

  /**
   The care is exact: an operation that respects the rest keeps every tracked commitment's challenge known if and only
   if it is careful.
   */
  lemma CareIsExact(w: World, hash: HashFn, op: DaOp)
    requires FinalInv(w, hash) && w.d.tracker.WellFormed() && Prompt(w, hash, op)
    ensures FinalInv(Step(w, hash, op), hash) <==> Careful(w, hash, op)
  {
    hide PromptInv, ForgetsNone, RecordsKnown, Step, Clean, Allowed;
    StepPrompt(w, hash, op);
    match op
    case OpAdvance(_, _, _) => AdvanceClean(w, hash, op);
    case OpRead(_, _, _, _) => ReadExact(w, hash, op);
    case OpReset(_) => ResetClean(w, hash, op);
    case OpFinalize(_) => FinalizeExact(w, hash, op);
  }

  // ---------------------------------------------------------------- careful runs

  lemma StepFinal(w: World, hash: HashFn, op: DaOp)
    requires FinalInv(w, hash) && w.d.tracker.WellFormed() && Careful(w, hash, op)
    ensures FinalInv(Step(w, hash, op), hash)
  {
    hide FinalInv, Careful, Step;
    assert Prompt(w, hash, op) by { CarefulIsPrompt(w, hash, op); }
    CareIsExact(w, hash, op);
  }

  lemma FinalWellFormed(w: World, hash: HashFn)
    requires FinalInv(w, hash)
    ensures w.d.tracker.WellFormed()
  {
  }

  lemma CarefulIsPrompt(w: World, hash: HashFn, op: DaOp)
    requires w.d.tracker.WellFormed() && Careful(w, hash, op)
    ensures Prompt(w, hash, op)
  {
  }

  ghost predicate CarefulRun(w: World, hash: HashFn, ops: seq<DaOp>, w': World)
    requires FinalInv(w, hash)
    decreases |ops|
  {
    if ops == [] then w' == w
    else
      FinalWellFormed(w, hash);
      Careful(w, hash, ops[0]) && (StepFinal(w, hash, ops[0]); CarefulRun(Step(w, hash, ops[0]), hash, ops[1..], w'))
  }

  lemma {:induction false} RunFinal(w: World, hash: HashFn, ops: seq<DaOp>, w': World)
    requires FinalInv(w, hash) && CarefulRun(w, hash, ops, w')
    ensures FinalInv(w', hash)
    decreases |ops|
  {
    hide Careful, Step, PromptInv, Clean;
    if ops != [] {
      FinalWellFormed(w, hash);
      StepFinal(w, hash, ops[0]);
      RunFinal(Step(w, hash, ops[0]), hash, ops[1..], w');
    }
  }

  lemma NewDaFinal(keccakMode: bool, challengeWindow: nat, resolveWindow: nat, hash: HashFn)
    ensures FinalInv(World(NewDa(keccakMode, challengeWindow, resolveWindow), [], -1), hash)
  {
    NewDaPrompt(keccakMode, challengeWindow, resolveWindow, hash);
  }

  ghost predicate CarefullyReaches(keccakMode: bool, challengeWindow: nat, resolveWindow: nat, hash: HashFn, ops: seq<DaOp>, w: World) {
    NewDaFinal(keccakMode, challengeWindow, resolveWindow, hash);
    CarefulRun(World(NewDa(keccakMode, challengeWindow, resolveWindow), [], -1), hash, ops, w)
  }

  /** One more step at the end of a careful run. */
  lemma {:induction false} CarefulOn(w: World, hash: HashFn, ops: seq<DaOp>, w1: World, op: DaOp, w2: World)
    requires FinalInv(w, hash) && CarefulRun(w, hash, ops, w1)
    requires w1.d.tracker.WellFormed() && Careful(w1, hash, op) && Step(w1, hash, op) == w2
    ensures CarefulRun(w, hash, ops + [op], w2)
    decreases |ops|
  {
    hide Careful, Step, PromptInv, Clean;
    FinalWellFormed(w, hash);
    if ops == [] {
      StepFinal(w, hash, op);
      assert ([] + [op])[1..] == [];
      assert CarefulRun(w2, hash, [], w2);
    } else {
      StepFinal(w, hash, ops[0]);
      CarefulOn(Step(w, hash, ops[0]), hash, ops[1..], w1, op, w2);
      assert (ops + [op])[1..] == ops[1..] + [op];
    }
  }

  lemma CarefulStart(keccakMode: bool, challengeWindow: nat, resolveWindow: nat, hash: HashFn)
    ensures CarefullyReaches(keccakMode, challengeWindow, resolveWindow, hash, [],
                             World(NewDa(keccakMode, challengeWindow, resolveWindow), [], -1))
  {
    hide FinalInv, NewDa;
    NewDaFinal(keccakMode, challengeWindow, resolveWindow, hash);
    var w := World(NewDa(keccakMode, challengeWindow, resolveWindow), [], -1);
    assert CarefulRun(w, hash, [], w);
  }

  lemma CarefullyOn(keccakMode: bool, challengeWindow: nat, resolveWindow: nat, hash: HashFn, ops: seq<DaOp>, w1: World,
                    op: DaOp, w2: World)
    requires CarefullyReaches(keccakMode, challengeWindow, resolveWindow, hash, ops, w1)
    requires w1.d.tracker.WellFormed() && Careful(w1, hash, op) && Step(w1, hash, op) == w2
    ensures CarefullyReaches(keccakMode, challengeWindow, resolveWindow, hash, ops + [op], w2)
  {
    hide FinalInv, Careful, Step, CarefulRun, NewDa;
    NewDaFinal(keccakMode, challengeWindow, resolveWindow, hash);
    CarefulOn(World(NewDa(keccakMode, challengeWindow, resolveWindow), [], -1), hash, ops, w1, op, w2);
  }

  /**
   In every careful run, each commitment that finalizing an L1 block drops was by the event log never challenged or was
   resolved, and its window ended at or before the finalized block.
   */
  lemma FinalizationSafe(keccakMode: bool, challengeWindow: nat, resolveWindow: nat, hash: HashFn, ops: seq<DaOp>, w: World,
                         l1Finalized: BlockRef)
    requires CarefullyReaches(keccakMode, challengeWindow, resolveWindow, hash, ops, w)
    requires w.d.tracker.WellFormed() && Prompt(w, hash, OpFinalize(l1Finalized))
    ensures forall i :: 0 <= i < Dropped(w.d, l1Finalized.number) ==>
      Settled(hash, w.log, w.d.tracker.expiredCommitments[i], w.d.tracker.resolveWindow, Horizon(w, l1Finalized.number))
  {
    hide DaInv, Settled, Forgotten, CarefulRun, NewDa, Allowed, CarefullyReaches, DueCommitments;
    ReachedFinal(keccakMode, challengeWindow, resolveWindow, hash, ops, w);
    forall i | 0 <= i < Dropped(w.d, l1Finalized.number)
      ensures Settled(hash, w.log, w.d.tracker.expiredCommitments[i], w.d.tracker.resolveWindow, Horizon(w, l1Finalized.number))
    {
      DroppedSettled(w, hash, l1Finalized.number, i);
    }
  }

  lemma ReachedFinal(keccakMode: bool, challengeWindow: nat, resolveWindow: nat, hash: HashFn, ops: seq<DaOp>, w: World)
    requires CarefullyReaches(keccakMode, challengeWindow, resolveWindow, hash, ops, w)
    ensures FinalInv(w, hash)
  {
    hide FinalInv, CarefulRun, NewDa;
    NewDaFinal(keccakMode, challengeWindow, resolveWindow, hash);
    RunFinal(World(NewDa(keccakMode, challengeWindow, resolveWindow), [], -1), hash, ops, w);
  }

  // ---------------------------------------------------------------- which challenges stay

  /** Its challenge, if it has one, is still open or ends after block `f`. */
  ghost predicate KeepsChallenge(d: Da, c: Commitment, f: nat)
    requires d.tracker.WellFormed()
  {
    c.Key() in d.tracker.index ==>
      var end := d.tracker.store[d.tracker.index[c.Key()]].resolveEnd; f < end || d.challengeOrigin < end
  }

  /** Finalizing block `f` prunes no challenge whose commitment is still active. */
  ghost predicate PrunesNoActive(d: Da, f: nat)
    requires d.tracker.WellFormed()
  {
    forall c :: c in d.tracker.commitments ==> KeepsChallenge(d, c, f)
  }

  /** Finalizing leaves every active commitment its challenge, resolved or not, under an exact condition. */
  lemma PruneActiveExact(w: World, hash: HashFn, l1Finalized: BlockRef)
    requires DaInv(w, hash) && w.d.tracker.WellFormed()
    ensures var s, s' := w.d.tracker, Finalize(w.d, l1Finalized).tracker;
      (forall c :: c in s.commitments && c.Key() in s.index ==> c.Key() in s'.index) <==> PrunesNoActive(w.d, l1Finalized.number)
  {
    hide VerifiedInputs, ResolvedAfter, Positions, SortedByEnd, Mirrors, UniqueCreates, QueuesInOrder, PruneTracker;
    var s, f := w.d.tracker, l1Finalized.number;
    PruneEffect(s, f, w.d.challengeOrigin);
    forall c | c in s.commitments && c.Key() in s.index
      ensures c.Key() in PruneTracker(s, f).index <==> KeepsChallenge(w.d, c, f)
    {
      var i := s.index[c.Key()];
      assert s.store[i].Key() == c.Key();
    }
  }
}
