/**
 A run that finalizes carelessly and misses a reorg. Commitment A holds back
 commitment B in the queue; B's challenge expires and is pruned before A's turn
 is over, and B then expires as if it had never been challenged.
 */
module DaMissedReorg {
  import opened BatcherTypes
  import opened DaState
  import opened DaLog
  import opened DaLogSteps
  import opened DaManager
  import opened DaRuns
  import opened DaFinality
  import opened DaScene

  const REF_A := BlockRef(101, 1)
  const REF_B := BlockRef(102, 2)
  function CommA(x: Scene): Commitment { Commitment(x.a, REF_A, 11) }
  function CommB(x: Scene): Commitment { Commitment(x.b, REF_B, 12) }
  const FINAL := BlockRef(113, 13)

  function ReadA(x: Scene): DaOp { OpRead(x.a, REF_A, Found(x.inputA), None) }
  function ReadB(x: Scene): DaOp { OpRead(x.b, REF_B, Found(x.inputB), None) }
  function Block3(x: Scene): DaOp { OpAdvance(3, Some([Challenged(x.b, 2)]), None) }
  function Block4(x: Scene): DaOp { OpAdvance(4, Some([Challenged(x.a, 1)]), None) }
  const BLOCK_13 := OpAdvance(13, Some([]), None)
  const FINALIZE := OpFinalize(FINAL)
  function Block14(x: Scene): DaOp { OpAdvance(14, Some([ResolvedBy(x.a, 1, Some(x.inputA))]), None) }

  function ChallengeB(x: Scene): Challenge { Challenge(x.b, 2, 13, [], Active) }
  function ChallengeA(x: Scene): Challenge { Challenge(x.a, 1, 14, [], Active) }

  function Tracked(x: Scene, challenges: seq<nat>, expired: seq<nat>, index: map<Key, nat>, store: seq<Challenge>): Tracker {
    Tracker(10, 10, [CommA(x), CommB(x)], [], challenges, expired, index, store, BlockRef(0, 0))
  }

  function At(t: Tracker, n: nat): Da {
    Da(true, t, n, n, BlockRef(0, 0), BlockRef(0, 0), false)
  }

  function D2(x: Scene): Da { At(Tracked(x, [], [], map[], []), 0) }

  function D3(x: Scene): Da { At(Tracked(x, [0], [], map[(x.b, 2) := 0], [ChallengeB(x)]), 3) }

  function D4(x: Scene): Da { At(Tracked(x, [0, 1], [], map[(x.b, 2) := 0, (x.a, 1) := 1], [ChallengeB(x), ChallengeA(x)]), 4) }

  function D13(x: Scene): Da {
    At(Tracked(x, [1], [0], map[(x.b, 2) := 0, (x.a, 1) := 1], [ChallengeB(x).(status := Expired), ChallengeA(x)]), 13)
  }

  function DFinal(x: Scene): Da {
    At(Tracked(x, [1], [], map[(x.a, 1) := 1], [ChallengeB(x).(status := Expired), ChallengeA(x)]), 13).(l1FinalizedHead := FINAL)
  }

  lemma StepReads(x: Scene)
    requires x.Ok()
    ensures Apply(Apply(NewDa(true, 10, 10), x.hash, ReadA(x)), x.hash, ReadB(x)) == D2(x)
  {
    var d := NewDa(true, 10, 10);
    var d1 := Apply(d, x.hash, ReadA(x));
    assert d1.tracker.commitments == [CommA(x)];
    assert [CommA(x)] + [CommB(x)] == [CommA(x), CommB(x)];
  }

  lemma Step3(x: Scene)
    requires x.Ok()
    ensures AdvanceL1Origin(D2(x), x.hash, 3, Block3(x).fetched, None) == (D3(x), Advanced)
  {
    hide AdvanceL1Origin;
    Quiet(D2(x), x.hash, 3, Challenged(x.b, 2), D3(x).tracker);
  }

  lemma Step4(x: Scene)
    requires x.Ok()
    ensures AdvanceL1Origin(D3(x), x.hash, 4, Block4(x).fetched, None) == (D4(x), Advanced)
  {
    hide AdvanceL1Origin;
    Quiet(D3(x), x.hash, 4, Challenged(x.a, 1), D4(x).tracker);
  }

  lemma Step13(x: Scene)
    requires x.Ok()
    ensures AdvanceL1Origin(D4(x), x.hash, 13, BLOCK_13.fetched, None) == (D13(x), Advanced)
  {
    var s := D4(x).tracker;
    assert LoadEvents(s, x.hash, 13, []) == s;
    assert [0, 1][1..] == [1];
    assert DueChallenges(s, [1], 13) == 0;
    assert DueChallenges(s, [0, 1], 13) == 1;
    var s1 := ExpireChallenges(s, 13);
    assert s.challenges[..1] == [0] && s.challenges[1..] == [1];
    assert s1.store == D13(x).tracker.store;
    assert s1 == D13(x).tracker;
    NoneDue(s1, 13);
    AdvanceTo(D4(x), x.hash, 13, [], s, s1);
  }

  lemma StepFinalize(x: Scene)
    requires x.Ok()
    ensures Finalize(D13(x), FINAL) == DFinal(x)
  {
    hide PruneChallenges, PruneCommitments;
    NoCommitmentPruned(D13(x).tracker, 13);
    PruneB(x);
  }

  lemma PruneB(x: Scene)
    requires x.Ok()
    ensures PruneChallenges(D13(x).tracker, 13) == DFinal(x).tracker
  {
    var s := D13(x).tracker;
    FirstDue(s, 0, 13);
    var gone := set i | 0 <= i < 1 :: s.store[s.expiredChallenges[i]].Key();
    assert gone == {(x.b, 2)} by {
      assert s.store[s.expiredChallenges[0]].Key() == (x.b, 2);
    }
    assert (x.a, 1) != (x.b, 2);
    assert s.index - gone == map[(x.a, 1) := 1];
  }

  function Resolved14(x: Scene): Tracker {
    DFinal(x).tracker.(store := [ChallengeB(x).(status := Expired), ChallengeA(x).(status := Resolved, input := x.inputA)])
  }

  function Closed14(x: Scene): Tracker {
    Resolved14(x).(challenges := [], expiredChallenges := [1])
  }

  function D14(x: Scene): Da {
    DFinal(x).(tracker := Closed14(x).(commitments := [], expiredCommitments := [CommA(x), CommB(x)]),
              challengeOrigin := 14, commitmentOrigin := 14)
  }

  lemma Close14(x: Scene)
    requires x.Ok()
    ensures ExpireChallenges(Resolved14(x), 14) == Closed14(x)
  {
    var s := Resolved14(x);
    assert DueChallenges(s, [], 14) == 0;
    assert [1][1..] == [];
    assert DueChallenges(s, [1], 14) == 1;
    assert MarkExpired(s.store, s.challenges[..1]) == s.store;
  }

  lemma Expire14(x: Scene)
    requires x.Ok()
    ensures ExpireCommitments(Closed14(x), 14) == (D14(x).tracker, false)
  {
    var s := Closed14(x);
    assert [CommA(x), CommB(x)][1..] == [CommB(x)] && [CommB(x)][1..] == [];
    assert DueCommitments(s, [], 14) == 0;
    assert DueCommitments(s, [CommB(x)], 14) == 1;
    assert DueCommitments(s, [CommA(x), CommB(x)], 14) == 2;
    assert s.commitments[..2] == [CommA(x), CommB(x)] && s.commitments[2..] == [];
    assert !s.Unresolved(s.commitments[0]) && !s.Unresolved(s.commitments[1]);
    var (s', reorg) := ExpireCommitments(s, 14);
    assert s'.expiredCommitments == [CommA(x), CommB(x)];
  }

  lemma Step14(x: Scene)
    requires x.Ok()
    ensures AdvanceL1Origin(DFinal(x), x.hash, 14, Block14(x).fetched, None) == (D14(x), Advanced)
  {
    hide AdvanceL1Origin, LoadEvents, ExpireChallenges, ExpireCommitments;
    var e := ResolvedBy(x.a, 1, Some(x.inputA));
    Load1(DFinal(x).tracker, x.hash, 14, e);
    assert ApplyEvent(DFinal(x).tracker, x.hash, 14, e) == Resolved14(x);
    Close14(x);
    Expire14(x);
    AdvanceTo(DFinal(x), x.hash, 14, [e], Resolved14(x), D14(x).tracker);
  }

  // ---------------------------------------------------------------- reachability

  function Log3(x: Scene): seq<Entry> { [Entry(3, Challenged(x.b, 2))] }
  function Log4(x: Scene): seq<Entry> { [Entry(3, Challenged(x.b, 2)), Entry(4, Challenged(x.a, 1))] }
  function Log14(x: Scene): seq<Entry> { Log4(x) + [Entry(14, ResolvedBy(x.a, 1, Some(x.inputA)))] }

  lemma AfterReads(x: Scene)
    requires x.Ok()
    ensures PromptlyReaches(true, 10, 10, x.hash, [ReadA(x), ReadB(x)], World(D2(x), [], -1))
  {
    hide PromptlyReaches, EventsOk;
    var d1 := Apply(NewDa(true, 10, 10), x.hash, ReadA(x));
    PromptStart(true, 10, 10, x.hash);
    PromptlyOn(true, 10, 10, x.hash, [], World(NewDa(true, 10, 10), [], -1), ReadA(x), World(d1, [], -1));
    StepReads(x);
    PromptlyOn(true, 10, 10, x.hash, [] + [ReadA(x)], World(d1, [], -1), ReadB(x), World(D2(x), [], -1));
    assert [] + [ReadA(x)] + [ReadB(x)] == [ReadA(x), ReadB(x)];
  }

  lemma World3(x: Scene)
    requires x.Ok()
    ensures var w := World(D2(x), [], -1);
      Prompt(w, x.hash, Block3(x)) && Step(w, x.hash, Block3(x)) == World(D3(x), Log3(x), -1)
  {
    hide AdvanceL1Origin, EventsOk, Entries;
    OneEvent(D2(x).tracker, x.hash, [], 3, Challenged(x.b, 2));
    Step3(x);
  }

  lemma World4(x: Scene)
    requires x.Ok()
    ensures var w := World(D3(x), Log3(x), -1);
      Prompt(w, x.hash, Block4(x)) && Step(w, x.hash, Block4(x)) == World(D4(x), Log4(x), -1)
  {
    hide AdvanceL1Origin, EventsOk, Entries;
    OneEvent(D3(x).tracker, x.hash, Log3(x), 4, Challenged(x.a, 1));
    Step4(x);
  }

  lemma World13(x: Scene)
    requires x.Ok()
    ensures var w := World(D4(x), Log4(x), -1);
      Prompt(w, x.hash, BLOCK_13) && Step(w, x.hash, BLOCK_13) == World(D13(x), Log4(x), -1)
  {
    hide AdvanceL1Origin;
    Step13(x);
    assert Log4(x) + Entries(13, []) == Log4(x);
  }

  lemma WorldFinal(x: Scene)
    requires x.Ok()
    ensures var w := World(D13(x), Log4(x), -1);
      Prompt(w, x.hash, FINALIZE) && Step(w, x.hash, FINALIZE) == World(DFinal(x), Log4(x), 13)
  {
    hide Finalize;
    StepFinalize(x);
  }

  /** The run is prompt all the way; only the last finalization is not careful. */
  lemma MissIsReachable(x: Scene)
    requires x.Ok()
    ensures PromptlyReaches(true, 10, 10, x.hash, [ReadA(x), ReadB(x), Block3(x), Block4(x), BLOCK_13, FINALIZE],
                            World(DFinal(x), Log4(x), 13))
  {
    hide PromptlyReaches, Prompt, Step;
    AfterReads(x);
    var ops := [ReadA(x), ReadB(x)];
    World3(x);
    PromptlyOn(true, 10, 10, x.hash, ops, World(D2(x), [], -1), Block3(x), World(D3(x), Log3(x), -1));
    World4(x);
    PromptlyOn(true, 10, 10, x.hash, ops + [Block3(x)], World(D3(x), Log3(x), -1), Block4(x), World(D4(x), Log4(x), -1));
    World13(x);
    PromptlyOn(true, 10, 10, x.hash, ops + [Block3(x)] + [Block4(x)], World(D4(x), Log4(x), -1), BLOCK_13, World(D13(x), Log4(x), -1));
    WorldFinal(x);
    PromptlyOn(true, 10, 10, x.hash, ops + [Block3(x)] + [Block4(x)] + [BLOCK_13], World(D13(x), Log4(x), -1), FINALIZE, World(DFinal(x), Log4(x), 13));
    assert ops + [Block3(x)] + [Block4(x)] + [BLOCK_13] + [FINALIZE] == [ReadA(x), ReadB(x), Block3(x), Block4(x), BLOCK_13, FINALIZE];
  }

  /** No reorg is asked for, though by the log B was challenged, never resolved, and is now on its way to finality. */
  lemma ReorgMissed(x: Scene, b: int)
    requires x.Ok()
    ensures AdvanceL1Origin(DFinal(x), x.hash, 14, Block14(x).fetched, None) == (D14(x), Advanced)
    ensures CommB(x) in D14(x).tracker.expiredCommitments
    ensures !Settled(x.hash, Log14(x), CommB(x), 10, b)
  {
    hide AdvanceL1Origin;
    Step14(x);
    assert Creates(Log14(x)[0], CommB(x).Key());
  }
}
