/**
 A careful run that reports a block as final although one of its commitments is
 under an open challenge. A and B are in the same L1 block; A's window passes
 without a challenge, B is challenged in its last block, and dropping A reports
 the block of both. The reorg that B then asks for is of a block reported final.
 */
module DaSharedBlock {
  import opened BatcherTypes
  import opened DaState
  import opened DaLog
  import opened DaLogSteps
  import opened DaManager
  import opened DaRuns
  import opened DaFinality
  import opened DaCare
  import opened DaFinalBlock
  import opened DaReorg
  import opened DaScene

  const REF := BlockRef(102, 2)
  const FINAL := BlockRef(112, 12)
  const FINALIZE := OpFinalize(FINAL)
  const BLOCK_22 := OpAdvance(22, Some([]), None)

  function CommA(x: Scene): Commitment { Commitment(x.a, REF, 12) }

  function CommB(x: Scene): Commitment { Commitment(x.b, REF, 12) }

  function ReadA(x: Scene): DaOp { OpRead(x.a, REF, Found(x.inputA), None) }

  function ReadB(x: Scene): DaOp { OpRead(x.b, REF, Found(x.inputB), None) }

  function Block12(x: Scene): DaOp { OpAdvance(12, Some([Challenged(x.b, 2)]), None) }

  function Log12(x: Scene): seq<Entry> { [Entry(12, Challenged(x.b, 2))] }

  function ChallengeB(x: Scene): Challenge { Challenge(x.b, 2, 22, [], Active) }

  function Bare(commitments: seq<Commitment>): Tracker {
    Tracker(10, 10, commitments, [], [], [], map[], [], NONE)
  }

  function Read1(x: Scene): Da { Da(true, Bare([CommA(x)]), 0, 0, NONE, NONE, false) }

  function Read2(x: Scene): Da { Da(true, Bare([CommA(x), CommB(x)]), 0, 0, NONE, NONE, false) }

  function Challenged12(x: Scene): Tracker {
    Bare([CommA(x), CommB(x)]).(challenges := [0], index := map[(x.b, 2) := 0], store := [ChallengeB(x)])
  }

  function Expired12(x: Scene): Da {
    Da(true, Challenged12(x).(commitments := [CommB(x)], expiredCommitments := [CommA(x)]), 12, 12, NONE, NONE, false)
  }

  function Final12(x: Scene): Da {
    Da(true, Challenged12(x).(commitments := [CommB(x)], lastPruned := REF), 12, 12, REF, FINAL, false)
  }

  // ---------------------------------------------------------------- the steps

  lemma StepReads(x: Scene)
    requires x.Ok()
    ensures Apply(NewDa(true, 10, 10), x.hash, ReadA(x)) == Read1(x)
    ensures Apply(Read1(x), x.hash, ReadB(x)) == Read2(x)
  {
    assert [] + [CommA(x)] == [CommA(x)];
    assert [CommA(x)] + [CommB(x)] == [CommA(x), CommB(x)];
  }

  /** In block 12 A's turn is over, B's is not. */
  lemma ExpireA(x: Scene)
    requires x.Ok()
    ensures ExpireCommitments(Challenged12(x), 12) == (Expired12(x).tracker, false)
  {
    var s := Challenged12(x);
    assert (x.a, 2) != (x.b, 2);
    assert [CommA(x), CommB(x)][1..] == [CommB(x)];
    assert DueCommitments(s, [CommB(x)], 12) == 0;
    assert DueCommitments(s, [CommA(x), CommB(x)], 12) == 1;
    assert !s.Unresolved(s.commitments[0]);
    assert s.commitments[..1] == [CommA(x)] && s.commitments[1..] == [CommB(x)];
    assert ExpireCommitments(s, 12).0.expiredCommitments == [CommA(x)];
  }

  lemma StepBlock12(x: Scene)
    requires x.Ok()
    ensures AdvanceL1Origin(Read2(x), x.hash, 12, Block12(x).fetched, None) == (Expired12(x), Advanced)
  {
    hide AdvanceL1Origin, LoadEvents, ExpireChallenges, ExpireCommitments;
    var e := Challenged(x.b, 2);
    Load1(Read2(x).tracker, x.hash, 12, e);
    assert ApplyEvent(Read2(x).tracker, x.hash, 12, e) == Challenged12(x);
    NoChallengeDue(Challenged12(x), 12);
    ExpireA(x);
    AdvanceTo(Read2(x), x.hash, 12, [e], Challenged12(x), Expired12(x).tracker);
  }

  lemma StepFinalize(x: Scene)
    requires x.Ok()
    ensures Finalize(Expired12(x), FINAL) == Final12(x)
  {
    var s := Expired12(x).tracker;
    assert (x.a, 2) != (x.b, 2);
    assert [CommA(x)][1..] == [];
    assert DueCommitments(s, [], 12) == 0;
    assert DueCommitments(s, [CommA(x)], 12) == 1;
    var s1 := PruneCommitments(s, 12);
    assert s1 == Final12(x).tracker;
    NoChallengePruned(s1, 12);
  }

  lemma NoChallengePruned(s: Tracker, at: nat)
    requires s.WellFormed() && s.expiredChallenges == []
    ensures PruneChallenges(s, at) == s
  {
    assert PruneChallenges(s, at).index == s.index;
  }

  // ---------------------------------------------------------------- reachability

  lemma CarefulReads(x: Scene)
    requires x.Ok()
    ensures CarefullyReaches(true, 10, 10, x.hash, [ReadA(x), ReadB(x)], World(Read2(x), [], -1))
  {
    hide CarefullyReaches, Apply;
    CarefulStart(true, 10, 10, x.hash);
    StepReads(x);
    CarefullyOn(true, 10, 10, x.hash, [], World(NewDa(true, 10, 10), [], -1), ReadA(x), World(Read1(x), [], -1));
    CarefullyOn(true, 10, 10, x.hash, [] + [ReadA(x)], World(Read1(x), [], -1), ReadB(x), World(Read2(x), [], -1));
    assert [] + [ReadA(x)] + [ReadB(x)] == [ReadA(x), ReadB(x)];
  }

  lemma CarefulBlock12(x: Scene)
    requires x.Ok()
    ensures var w := World(Read2(x), [], -1);
      Careful(w, x.hash, Block12(x)) && Step(w, x.hash, Block12(x)) == World(Expired12(x), Log12(x), -1)
  {
    hide AdvanceL1Origin, EventsOk, Entries;
    OneEvent(Read2(x).tracker, x.hash, [], 12, Challenged(x.b, 2));
    StepBlock12(x);
  }

  lemma CarefulFinalize(x: Scene)
    requires x.Ok()
    ensures var w := World(Expired12(x), Log12(x), -1);
      Careful(w, x.hash, FINALIZE) && Step(w, x.hash, FINALIZE) == World(Final12(x), Log12(x), 12)
  {
    hide Finalize;
    StepFinalize(x);
  }

  /** Every step is careful, and the block of both commitments is now reported as final. */
  lemma OpenBlockIsReachable(x: Scene)
    requires x.Ok()
    ensures CarefullyReaches(true, 10, 10, x.hash, [ReadA(x), ReadB(x), Block12(x), FINALIZE], World(Final12(x), Log12(x), 12))
  {
    hide CarefullyReaches, Careful, Step;
    var ops := [ReadA(x), ReadB(x)];
    CarefulReads(x);
    CarefulBlock12(x);
    CarefullyOn(true, 10, 10, x.hash, ops, World(Read2(x), [], -1), Block12(x), World(Expired12(x), Log12(x), -1));
    CarefulFinalize(x);
    CarefullyOn(true, 10, 10, x.hash, ops + [Block12(x)], World(Expired12(x), Log12(x), -1), FINALIZE, World(Final12(x), Log12(x), 12));
    assert ops + [Block12(x)] + [FINALIZE] == [ReadA(x), ReadB(x), Block12(x), FINALIZE];
  }

  /** B is in the block reported as final, its challenge is open, and by the log it is not settled at any block. */
  lemma OpenBlockReported(x: Scene, b: int)
    requires x.Ok()
    ensures var d := Final12(x);
      && d.finalizedHead == CommB(x).inclusion && CommB(x) in d.tracker.commitments
      && d.tracker.WellFormed() && d.tracker.StatusOf(CommB(x).Key()) == Active
      && !Settled(x.hash, Log12(x), CommB(x), 10, b)
  {
    assert Creates(Log12(x)[0], CommB(x).Key());
  }

  /** So finalizing reported a block that was not settled. */
  lemma OpenBlockUnsettled(x: Scene)
    requires x.Ok()
    ensures Expired12(x).tracker.WellFormed() && !BlockSettled(World(Expired12(x), Log12(x), -1), x.hash, FINAL)
  {
    hide Finalize, Settled;
    var w := World(Expired12(x), Log12(x), -1);
    StepFinalize(x);
    OpenBlockReported(x, Horizon(w, 12));
    assert Tracks(w.d.tracker, CommB(x)) && Covers(Final12(x).finalizedHead, CommB(x));
  }

  lemma ExpireB(x: Scene)
    requires x.Ok()
    ensures var s := ExpireChallenges(Final12(x).tracker, 22); s.WellFormed() && ExpireCommitments(s, 22).1
  {
    var s := Final12(x).tracker;
    FirstDue(s, 0, 22);
    var s1 := ExpireChallenges(s, 22);
    assert s.challenges[..1] == [0];
    assert s1.store[0] == ChallengeB(x).(status := Expired);
    assert [CommB(x)][1..] == [];
    assert DueCommitments(s1, [], 22) == 0;
    assert DueCommitments(s1, [CommB(x)], 22) == 1;
    assert s1.Unresolved(s1.commitments[0]);
  }

  /** At the end of B's window a reorg of that block is asked for. */
  lemma FinalBlockReorged(x: Scene)
    requires x.Ok()
    ensures AdvanceL1Origin(Final12(x), x.hash, 22, BLOCK_22.fetched, None).1 == ReorgRequired
  {
    hide ExpireChallenges, ExpireCommitments;
    assert LoadEvents(Final12(x).tracker, x.hash, 22, []) == Final12(x).tracker;
    ExpireB(x);
  }
}
