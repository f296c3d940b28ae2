/**
 Finalization of commitments: one that is dropped as final was never challenged,
 or its challenge was resolved, and its window is over in a finalized block,
 unless an unresolved challenge against it has been pruned.
 */
module DaFinality {
  import opened Commitments
  import opened DaState
  import opened DaLog
  import opened DaLogSteps
  import opened DaManager
  import opened DaRuns
  import opened DaReads
  import opened DaReorg

  /** By the log: unchallenged and out of the challenge window by block `b`, or resolved and out of the resolve window. */
  ghost predicate Settled(hash: HashFn, log: seq<Entry>, c: Commitment, resolveWindow: nat, b: int) {
    || (Challengeless(log, c.Key()) && c.windowEnd <= b)
    || (exists n: nat :: n < |log| && Creates(log[n], c.Key()) && ResolvedAfter(hash, log, c.Key(), n) && log[n].at + resolveWindow <= b)
  }

  /** An unresolved challenge against `k` was pruned. */
  ghost predicate Forgotten(hash: HashFn, log: seq<Entry>, k: Key, resolveWindow: nat, pruned: int) {
    exists n: nat :: n < |log| && Creates(log[n], k) && !ResolvedAfter(hash, log, k, n) && log[n].at + resolveWindow <= pruned
  }

  ghost predicate SettledNow(w: World, hash: HashFn, c: Commitment) {
    Settled(hash, w.log, c, w.d.tracker.resolveWindow, w.d.challengeOrigin)
  }

  ghost predicate ForgottenNow(w: World, hash: HashFn, k: Key) {
    Forgotten(hash, w.log, k, w.d.tracker.resolveWindow, w.pruned)
  }

  /** What every prompt run knows: a commitment that expired without a reorg is settled, or a challenge was forgotten. */
  ghost predicate PromptInv(w: World, hash: HashFn) {
    && DaInv(w, hash)
    && w.pruned <= w.d.l1FinalizedHead.number
    && (forall c :: Tracks(w.d.tracker, c) ==> c.windowEnd == c.inclusion.number + w.d.tracker.challengeWindow)
    && (!w.d.resetting ==> forall c :: c in w.d.tracker.expiredCommitments ==> SettledNow(w, hash, c) || ForgottenNow(w, hash, c.Key()))
  }

  /** A reset follows each reorg request at once, and L1 finality does not go back. */
  ghost predicate Prompt(w: World, hash: HashFn, op: DaOp)
    requires w.d.tracker.WellFormed()
  {
    && Allowed(w, hash, op)
    && (w.d.resetting ==> op.OpReset?)
    && (op.OpFinalize? ==> w.d.l1FinalizedHead.number <= op.l1Finalized.number)
  }

  // ---------------------------------------------------------------- log facts

  /** Where an indexed challenge was raised, and whether it was resolved. */
  lemma IndexedInLog(w: World, hash: HashFn, k: Key) returns (n: nat)
    requires DaInv(w, hash) && w.d.tracker.WellFormed() && k in w.d.tracker.index
    ensures n < |w.log| && Creates(w.log[n], k)
    ensures w.d.tracker.store[w.d.tracker.index[k]].resolveEnd == w.log[n].at + w.d.tracker.resolveWindow
    ensures w.d.tracker.StatusOf(k) == Resolved <==> ResolvedAfter(hash, w.log, k, n)
    ensures w.pruned < w.log[n].at + w.d.tracker.resolveWindow
  {
    hide ResolvedAfter, Positions, UniqueCreates, VerifiedInputs;
    var i := w.d.tracker.index[k];
    assert Mirrors(w.d.tracker, hash, w.log, i);
    n := Positions(w.log)[i];
  }

  lemma ResolvedAfterGrows(hash: HashFn, log: seq<Entry>, more: seq<Entry>, k: Key, n: nat)
    requires ResolvedAfter(hash, log, k, n)
    ensures ResolvedAfter(hash, log + more, k, n)
  {
    var m :| n < m < |log| && Resolves(hash, log[m], k);
    assert (log + more)[m] == log[m];
  }

  /** More blocks of admissible events do not unsettle a commitment. */
  lemma SettledStable(s: Tracker, hash: HashFn, log: seq<Entry>, c: Commitment, b: nat, at: nat, es: seq<Event>)
    requires Settled(hash, log, c, s.resolveWindow, b) && b < at && EventsOk(s, hash, log, at, es)
    requires c.windowEnd == c.inclusion.number + s.challengeWindow
    ensures Settled(hash, log + Entries(at, es), c, s.resolveWindow, at)
  {
    hide ResolvedAfter, EventsOk;
    var log' := log + Entries(at, es);
    if Challengeless(log, c.Key()) && c.windowEnd <= b {
      EventsFresh(s, hash, log, at, es);
      forall n | 0 <= n < |log'|
        ensures !Creates(log'[n], c.Key())
      {
        assert n < |log| ==> log'[n] == log[n];
        assert |log| <= n ==> log'[n] == Entry(at, es[n - |log|]);
      }
    } else {
      var n: nat :| n < |log| && Creates(log[n], c.Key()) && ResolvedAfter(hash, log, c.Key(), n) && log[n].at + s.resolveWindow <= b;
      ResolvedAfterGrows(hash, log, Entries(at, es), c.Key(), n);
      assert log'[n] == log[n];
    }
  }

  /** New events cannot make a challenge pruned that was not. */
  lemma UnforgottenStable(hash: HashFn, log: seq<Entry>, k: Key, resolveWindow: nat, pruned: int, at: nat, es: seq<Event>)
    requires !Forgotten(hash, log, k, resolveWindow, pruned) && pruned < at
    ensures !Forgotten(hash, log + Entries(at, es), k, resolveWindow, pruned)
  {
    hide ResolvedAfter;
    var log' := log + Entries(at, es);
    forall n: nat | n < |log'| && Creates(log'[n], k) && log'[n].at + resolveWindow <= pruned
      ensures ResolvedAfter(hash, log', k, n)
    {
      assert n < |log| ==> log'[n] == log[n];
      ResolvedAfterGrows(hash, log, Entries(at, es), k, n);
    }
  }

  /** Nor can they resolve one whose window is over. */
  lemma ForgottenStable(w: World, hash: HashFn, k: Key, at: nat, es: seq<Event>)
    requires DaInv(w, hash) && ForgottenNow(w, hash, k)
    requires w.d.challengeOrigin < at && EventsOk(w.d.tracker, hash, w.log, at, es)
    ensures Forgotten(hash, w.log + Entries(at, es), k, w.d.tracker.resolveWindow, w.pruned)
  {
    hide EventsOk, ResolvedAfter, Positions, Mirrors, SortedByEnd, IndexExact, QueuesInOrder, VerifiedInputs;
    var s := w.d.tracker;
    var n: nat :| n < |w.log| && Creates(w.log[n], k) && !ResolvedAfter(hash, w.log, k, n) && w.log[n].at + s.resolveWindow <= w.pruned;
    ExpiredStable(s, hash, w.log, k, w.d.challengeOrigin, -1, n, at, es);
    assert (w.log + Entries(at, es))[n] == w.log[n];
  }

  lemma PrunedBehind(w: World, hash: HashFn)
    requires DaInv(w, hash)
    ensures w.pruned <= w.d.challengeOrigin
  {
  }

  lemma NotIndexed(w: World, hash: HashFn, k: Key)
    requires DaInv(w, hash) && Challengeless(w.log, k)
    ensures k !in w.d.tracker.index
  {
    NotTracked(w.d.tracker, hash, w.log, w.d.challengeOrigin, w.pruned, w.d.challengeOrigin, k);
  }

  /** A challenge that is in the log and not in the index was pruned. */
  lemma GoneMeansPruned(w: World, hash: HashFn, k: Key, n: nat)
    requires DaInv(w, hash) && n < |w.log| && Creates(w.log[n], k) && k !in w.d.tracker.index
    ensures w.log[n].at + w.d.tracker.resolveWindow <= w.pruned
  {
    hide ResolvedAfter, Positions, UniqueCreates, VerifiedInputs;
    var i := PositionsComplete(w.log, n);
    assert Mirrors(w.d.tracker, hash, w.log, i);
  }

  lemma OnlyCreate(w: World, hash: HashFn, k: Key, n: nat)
    requires DaInv(w, hash) && n < |w.log| && Creates(w.log[n], k)
    ensures forall m :: 0 <= m < |w.log| && Creates(w.log[m], k) ==> m == n
    ensures !Challengeless(w.log, k)
  {
    hide ResolvedAfter, Positions, Mirrors, SortedByEnd, CutAt, IndexExact, QueuesInOrder, VerifiedInputs;
    TheCreate(w.log, k, n);
  }

  /** A commitment with an unresolved challenge behind it is never settled, and one that is settled has none. */
  lemma ForgottenUnsettled(w: World, hash: HashFn, c: Commitment, pruned: int, b: int)
    requires DaInv(w, hash)
    ensures !(Forgotten(hash, w.log, c.Key(), w.d.tracker.resolveWindow, pruned)
              && Settled(hash, w.log, c, w.d.tracker.resolveWindow, b))
  {
    hide TrackerInv, VerifiedInputs, ResolvedAfter;
    if !Challengeless(w.log, c.Key()) {
      var n: nat :| n < |w.log| && Creates(w.log[n], c.Key());
      OnlyCreate(w, hash, c.Key(), n);
    }
  }

  /** A commitment that expires without asking for a reorg is settled if and only if no challenge against it was forgotten. */
  lemma ExpiredSettledExact(w: World, hash: HashFn, c: Commitment, at: nat)
    requires DaInv(w, hash) && w.d.tracker.WellFormed() && at <= w.d.challengeOrigin
    requires w.d.tracker.ExpiresAt(c) <= at && !w.d.tracker.Unresolved(c)
    ensures SettledNow(w, hash, c) <==> !ForgottenNow(w, hash, c.Key())
  {
    hide TrackerInv, VerifiedInputs, ResolvedAfter;
    PrunedBehind(w, hash);
    if c.Key() in w.d.tracker.index {
      var n := IndexedInLog(w, hash, c.Key());
      OnlyCreate(w, hash, c.Key(), n);
    } else if !Challengeless(w.log, c.Key()) {
      var n: nat :| n < |w.log| && Creates(w.log[n], c.Key());
      OnlyCreate(w, hash, c.Key(), n);
      GoneMeansPruned(w, hash, c.Key(), n);
    }
  }

  // ---------------------------------------------------------------- steps

  /** The next block's events keep what is known about every commitment. */
  lemma NextBlockPrompt(w: World, hash: HashFn, at: nat, es: seq<Event>)
    requires PromptInv(w, hash) && w.d.tracker.WellFormed() && w.d.challengeOrigin < at
    requires EventsOk(w.d.tracker, hash, w.log, at, es)
    ensures var d' := w.d.(tracker := NextTracker(w.d.tracker, hash, at, es), challengeOrigin := at);
      PromptInv(World(d', w.log + Entries(at, es), w.pruned), hash)
  {
    hide TrackerInv, EventsOk, NextTracker, VerifiedInputs, Forgotten, Settled;
    var s := w.d.tracker;
    NextBlockStep(w, hash, at, es);
    NextSettings(s, hash, at, es);
    forall c | c in s.expiredCommitments && !w.d.resetting
      ensures || Settled(hash, w.log + Entries(at, es), c, s.resolveWindow, at)
              || Forgotten(hash, w.log + Entries(at, es), c.Key(), s.resolveWindow, w.pruned)
    {
      if SettledNow(w, hash, c) {
        SettledStable(s, hash, w.log, c, w.d.challengeOrigin, at, es);
      } else {
        ForgottenStable(w, hash, c.Key(), at, es);
      }
    }
  }

  /** Expiring commitments after the challenges of the same block. */
  lemma ExpirePrompt(w: World, hash: HashFn, at: nat)
    requires PromptInv(w, hash) && w.d.tracker.WellFormed() && at <= w.d.challengeOrigin && !w.d.resetting
    ensures PromptInv(World(AdvanceCommitmentOrigin(w.d, at).0, w.log, w.pruned), hash)
  {
    hide TrackerInv, VerifiedInputs, Settled, Forgotten;
    var s := w.d.tracker;
    var (d', r) := AdvanceCommitmentOrigin(w.d, at);
    CommitmentChangeKeeps(w, hash, d');
    if w.d.commitmentOrigin < at && r == Advanced {
      var n := DueCommitments(s, s.commitments, at);
      forall c | c in s.commitments[..n]
        ensures SettledNow(w, hash, c) || ForgottenNow(w, hash, c.Key())
      {
        var i :| 0 <= i < n && s.commitments[i] == c;
        ExpiredSettledExact(w, hash, c, at);
      }
    }
  }

  lemma AdvancePrompt(w: World, hash: HashFn, op: DaOp)
    requires PromptInv(w, hash) && w.d.tracker.WellFormed() && op.OpAdvance? && Prompt(w, hash, op)
    ensures PromptInv(Step(w, hash, op), hash)
  {
    hide TrackerInv, VerifiedInputs, EventsOk, ExpireChallenges, LoadEvents, Forgotten, Settled, DueCommitments;
    var w1 := w;
    if Loaded(w.d, op).Some? {
      var es := Loaded(w.d, op).value.1;
      NextBlockPrompt(w, hash, op.at, es);
      w1 := World(w.d.(tracker := NextTracker(w.d.tracker, hash, op.at, es), challengeOrigin := op.at),
                  w.log + Entries(op.at, es), w.pruned);
      HasWellFormed(w1, hash);
    }
    if AdvanceChallengeOrigin(w.d, hash, op.at, op.fetched).1 == Advanced {
      ExpirePrompt(w1, hash, op.at);
      var w2 := World(AdvanceCommitmentOrigin(w1.d, op.at).0, w1.log, w1.pruned);
      HeadApart(w2, hash, Step(w, hash, op).d.finalizedHead);
    }
  }

  lemma HeadApart(w: World, hash: HashFn, head: BlockRef)
    requires PromptInv(w, hash)
    ensures PromptInv(w.(d := w.d.(finalizedHead := head)), hash)
  {
    hide TrackerInv, VerifiedInputs, Forgotten, Settled;
  }

  lemma ReadPrompt(w: World, hash: HashFn, op: DaOp)
    requires PromptInv(w, hash) && w.d.tracker.WellFormed() && op.OpRead? && Allowed(w, hash, op)
    ensures PromptInv(Step(w, hash, op), hash)
  {
    hide TrackerInv, VerifiedInputs, EventsOk, ExpireChallenges, LoadEvents, Forgotten, Settled;
    var d1 := w.d.(tracker := TrackCommitment(w.d.tracker, op.comm, op.inclusion));
    CommitmentChangeKeeps(w, hash, d1);
    assert PromptInv(World(d1, w.log, w.pruned), hash);
    if Loaded(w.d, op).Some? {
      var (at, es) := Loaded(w.d, op).value;
      EventsOkApart(w.d.tracker, d1.tracker, hash, w.log, at, es);
      NextBlockPrompt(World(d1, w.log, w.pruned), hash, at, es);
    }
  }

  lemma ResetPrompt(w: World, hash: HashFn, op: DaOp)
    requires PromptInv(w, hash) && w.d.tracker.WellFormed() && op.OpReset? && Allowed(w, hash, op)
    ensures PromptInv(Step(w, hash, op), hash)
  {
    hide TrackerInv, VerifiedInputs, Forgotten, Settled;
    ResetKeeps(w, hash, op);
  }

  lemma FinalizePrompt(w: World, hash: HashFn, op: DaOp)
    requires PromptInv(w, hash) && w.d.tracker.WellFormed() && op.OpFinalize? && Prompt(w, hash, op)
    ensures PromptInv(Step(w, hash, op), hash)
  {
    hide TrackerInv, VerifiedInputs, Settled, ResolvedAfter, DueCommitments, DueChallenges;
    FinalizeKeeps(w, hash, op);
  }

  lemma StepPrompt(w: World, hash: HashFn, op: DaOp)
    requires PromptInv(w, hash) && w.d.tracker.WellFormed() && Prompt(w, hash, op)
    ensures PromptInv(Step(w, hash, op), hash)
  {
    hide PromptInv, Step;
    match op
    case OpAdvance(_, _, _) => AdvancePrompt(w, hash, op);
    case OpRead(_, _, _, _) => ReadPrompt(w, hash, op);
    case OpReset(_) => ResetPrompt(w, hash, op);
    case OpFinalize(_) => FinalizePrompt(w, hash, op);
  }

  // ---------------------------------------------------------------- runs

  ghost predicate PromptRun(w: World, hash: HashFn, ops: seq<DaOp>, w': World)
    requires PromptInv(w, hash)
    decreases |ops|
  {
    if ops == [] then w' == w
    else
      HasWellFormed(w, hash);
      Prompt(w, hash, ops[0]) && (StepPrompt(w, hash, ops[0]); PromptRun(Step(w, hash, ops[0]), hash, ops[1..], w'))
  }

  lemma {:induction false} RunPrompt(w: World, hash: HashFn, ops: seq<DaOp>, w': World)
    requires PromptInv(w, hash) && PromptRun(w, hash, ops, w')
    ensures PromptInv(w', hash)
    decreases |ops|
  {
    hide DaInv, Prompt, Step, Settled, Forgotten;
    if ops != [] {
      HasWellFormed(w, hash);
      StepPrompt(w, hash, ops[0]);
      RunPrompt(Step(w, hash, ops[0]), hash, ops[1..], w');
    }
  }

  lemma NewDaPrompt(keccakMode: bool, challengeWindow: nat, resolveWindow: nat, hash: HashFn)
    ensures PromptInv(World(NewDa(keccakMode, challengeWindow, resolveWindow), [], -1), hash)
  {
    NewDaInv(keccakMode, challengeWindow, resolveWindow, hash);
  }

  ghost predicate PromptlyReaches(keccakMode: bool, challengeWindow: nat, resolveWindow: nat, hash: HashFn, ops: seq<DaOp>, w: World) {
    NewDaPrompt(keccakMode, challengeWindow, resolveWindow, hash);
    PromptRun(World(NewDa(keccakMode, challengeWindow, resolveWindow), [], -1), hash, ops, w)
  }

  lemma {:induction false} PromptOn(w: World, hash: HashFn, ops: seq<DaOp>, w1: World, op: DaOp, w2: World)
    requires PromptInv(w, hash) && PromptRun(w, hash, ops, w1)
    requires w1.d.tracker.WellFormed() && Prompt(w1, hash, op) && Step(w1, hash, op) == w2
    ensures PromptRun(w, hash, ops + [op], w2)
    decreases |ops|
  {
    hide DaInv, Prompt, Step, Settled, Forgotten;
    HasWellFormed(w, hash);
    if ops == [] {
      StepPrompt(w, hash, op);
      assert ([] + [op])[1..] == [];
      assert PromptRun(w2, hash, [], w2);
    } else {
      StepPrompt(w, hash, ops[0]);
      PromptOn(Step(w, hash, ops[0]), hash, ops[1..], w1, op, w2);
      assert (ops + [op])[1..] == ops[1..] + [op];
    }
  }

  lemma PromptStart(keccakMode: bool, challengeWindow: nat, resolveWindow: nat, hash: HashFn)
    ensures PromptlyReaches(keccakMode, challengeWindow, resolveWindow, hash, [],
                            World(NewDa(keccakMode, challengeWindow, resolveWindow), [], -1))
  {
    hide PromptInv, NewDa;
    NewDaPrompt(keccakMode, challengeWindow, resolveWindow, hash);
    var w := World(NewDa(keccakMode, challengeWindow, resolveWindow), [], -1);
    assert PromptRun(w, hash, [], w);
  }

  lemma PromptlyOn(keccakMode: bool, challengeWindow: nat, resolveWindow: nat, hash: HashFn, ops: seq<DaOp>, w1: World,
                   op: DaOp, w2: World)
    requires PromptlyReaches(keccakMode, challengeWindow, resolveWindow, hash, ops, w1)
    requires w1.d.tracker.WellFormed() && Prompt(w1, hash, op) && Step(w1, hash, op) == w2
    ensures PromptlyReaches(keccakMode, challengeWindow, resolveWindow, hash, ops + [op], w2)
  {
    hide PromptInv, Prompt, Step, PromptRun, NewDa;
    NewDaPrompt(keccakMode, challengeWindow, resolveWindow, hash);
    PromptOn(World(NewDa(keccakMode, challengeWindow, resolveWindow), [], -1), hash, ops, w1, op, w2);
  }

  /** The last block that is both finalized and processed. */
  ghost function Horizon(w: World, f: nat): nat {
    if f < w.d.challengeOrigin then f else w.d.challengeOrigin
  }

  /** How many commitments finalizing block `f` drops. */
  ghost function Dropped(d: Da, f: nat): nat
    requires d.tracker.WellFormed()
  {
    DueCommitments(d.tracker, d.tracker.expiredCommitments, f)
  }

  /**
   In every prompt run, a commitment that finalizing an L1 block drops was by the event log never challenged or was
   resolved, and its window ended at or before the finalized block, if and only if no unresolved challenge against it
   has been pruned.
   */
  lemma FinalizationExact(keccakMode: bool, challengeWindow: nat, resolveWindow: nat, hash: HashFn, ops: seq<DaOp>, w: World,
                          l1Finalized: BlockRef, i: nat)
    requires PromptlyReaches(keccakMode, challengeWindow, resolveWindow, hash, ops, w)
    requires w.d.tracker.WellFormed() && Prompt(w, hash, OpFinalize(l1Finalized)) && i < Dropped(w.d, l1Finalized.number)
    ensures var c := w.d.tracker.expiredCommitments[i];
      Settled(hash, w.log, c, w.d.tracker.resolveWindow, Horizon(w, l1Finalized.number)) <==> !ForgottenNow(w, hash, c.Key())
  {
    hide PromptInv, NewDa, PromptRun, Allowed;
    NewDaPrompt(keccakMode, challengeWindow, resolveWindow, hash);
    RunPrompt(World(NewDa(keccakMode, challengeWindow, resolveWindow), [], -1), hash, ops, w);
    DroppedSettled(w, hash, l1Finalized.number, i);
  }

  lemma DroppedSettled(w: World, hash: HashFn, f: nat, i: nat)
    requires PromptInv(w, hash) && w.d.tracker.WellFormed() && !w.d.resetting
    requires w.d.l1FinalizedHead.number <= f && i < Dropped(w.d, f)
    ensures var c := w.d.tracker.expiredCommitments[i];
      Settled(hash, w.log, c, w.d.tracker.resolveWindow, Horizon(w, f)) <==> !ForgottenNow(w, hash, c.Key())
  {
    hide DaInv, Settled, Forgotten;
    var c := w.d.tracker.expiredCommitments[i];
    ForgottenUnsettled(w, hash, c, w.pruned, Horizon(w, f));
    if SettledNow(w, hash, c) {
      SettledThen(w, hash, c, f);
    }
  }

  /** Settled by the last processed block, and due by `f`: settled by both. */
  lemma SettledThen(w: World, hash: HashFn, c: Commitment, f: nat)
    requires DaInv(w, hash) && w.d.tracker.WellFormed() && SettledNow(w, hash, c)
    requires w.d.tracker.ExpiresAt(c) <= f && w.pruned <= f
    ensures Settled(hash, w.log, c, w.d.tracker.resolveWindow, Horizon(w, f))
  {
    hide TrackerInv, VerifiedInputs, ResolvedAfter;
    var s := w.d.tracker;
    if Challengeless(w.log, c.Key()) {
      NotIndexed(w, hash, c.Key());
    } else {
      var n: nat :| n < |w.log| && Creates(w.log[n], c.Key()) && ResolvedAfter(hash, w.log, c.Key(), n)
                    && w.log[n].at + s.resolveWindow <= w.d.challengeOrigin;
      if c.Key() in s.index {
        EndOf(w, hash, c.Key(), n);
      } else {
        GoneMeansPruned(w, hash, c.Key(), n);
      }
    }
  }

  /** What finalizing reports: the block of the last commitment dropped, now or earlier. */
  lemma HeadReported(d: Da, l1Finalized: BlockRef)
    requires d.tracker.WellFormed()
    ensures var s, d', n := d.tracker, Finalize(d, l1Finalized), Dropped(d, l1Finalized.number);
      && n <= |s.expiredCommitments| && d'.tracker.expiredCommitments == s.expiredCommitments[n..]
      && d'.tracker.commitments == s.commitments
      && d'.finalizedHead == (if n == 0 then s.lastPruned else s.expiredCommitments[n - 1].inclusion)
  {
    hide DueChallenges, DueCommitments;
  }

  // ---------------------------------------------------------------- forgotten for good

  lemma ForgottenStep(w: World, hash: HashFn, op: DaOp, k: Key)
    requires DaInv(w, hash) && w.d.tracker.WellFormed() && Allowed(w, hash, op) && (op.OpReset? ==> w.d.resetting)
    requires ForgottenNow(w, hash, k)
    ensures ForgottenNow(Step(w, hash, op), hash, k)
  {
    hide DaInv, Apply, EventsOk, ResolvedAfter;
    StepSettings(w, hash, op);
    if Loaded(w.d, op).Some? {
      ForgottenStable(w, hash, k, Loaded(w.d, op).value.0, Loaded(w.d, op).value.1);
    }
  }

  /** Once a challenge is forgotten, no later run short of an L1 reorg settles the commitment. */
  lemma {:induction false} ForgottenForever(w: World, hash: HashFn, ops: seq<DaOp>, w': World, c: Commitment, b: int)
    requires DaInv(w, hash) && ForgottenNow(w, hash, c.Key()) && Leads(w, hash, ops, w') && NoL1Reorg(w, hash, ops)
    ensures ForgottenNow(w', hash, c.Key()) && !Settled(hash, w'.log, c, w'.d.tracker.resolveWindow, b)
    decreases |ops|
  {
    hide DaInv, Allowed, Step, ForgottenNow, Settled;
    HasWellFormed(w, hash);
    if ops == [] {
      UnsettledNow(w, hash, c, b);
    } else {
      StepKeeps(w, hash, ops[0]);
      ForgottenStep(w, hash, ops[0], c.Key());
      ForgottenForever(Step(w, hash, ops[0]), hash, ops[1..], w', c, b);
    }
  }

  lemma UnsettledNow(w: World, hash: HashFn, c: Commitment, b: int)
    requires DaInv(w, hash) && ForgottenNow(w, hash, c.Key())
    ensures !Settled(hash, w.log, c, w.d.tracker.resolveWindow, b)
  {
    hide DaInv, Forgotten, Settled;
    ForgottenUnsettled(w, hash, c, w.pruned, b);
  }
}
