/**
 A run that resets promptly and finalizes carefully, and still reports a
 commitment with an unresolved challenge as final. The challenge expires, the
 reorg happens, and finalization prunes the challenge while derivation is behind;
 when derivation reaches the commitment again, nothing is known against it.
 */
module DaStaleRead {
  import opened BatcherTypes
  import opened DaState
  import opened DaLog
  import opened DaLogSteps
  import opened DaManager
  import opened DaRuns
  import opened DaFinality
  import opened DaCare
  import opened DaScene
  import opened DaMissedReorg

  const RESET := OpReset(1)
  const LATER := OpAdvance(14, Some([]), None)
  const FINAL_14 := BlockRef(114, 14)
  function GoneB(x: Scene): Challenge { ChallengeB(x).(status := Expired) }

  function Holding(commitments: seq<Commitment>, expired: seq<Commitment>, challenges: seq<nat>, closed: seq<nat>,
                   index: map<Key, nat>, store: seq<Challenge>): Tracker {
    Tracker(10, 10, commitments, expired, challenges, closed, index, store, NONE)
  }

  function Read1(x: Scene): Da { At(Holding([CommB(x)], [], [], [], map[], []), 0) }

  function Challenged3(x: Scene): Da { At(Holding([CommB(x)], [], [0], [], map[(x.b, 2) := 0], [ChallengeB(x)]), 3) }

  /** The challenge is closed by block 13, its commitment not yet. */
  function Closed13(x: Scene): Tracker { Holding([CommB(x)], [], [], [0], map[(x.b, 2) := 0], [GoneB(x)]) }

  function Reorg13(x: Scene): Da {
    Da(true, Closed13(x).(commitments := [], expiredCommitments := [CommB(x)]), 13, 3, NONE, NONE, true)
  }

  function Reset13(x: Scene): Da { Da(true, Holding([], [], [], [0], map[(x.b, 2) := 0], [GoneB(x)]), 13, 1, NONE, NONE, false) }

  function Final13(x: Scene): Da { Da(true, Holding([], [], [], [], map[], [GoneB(x)]), 13, 1, NONE, FINAL, false) }

  function Reread(x: Scene): Da { Final13(x).(tracker := Holding([CommB(x)], [], [], [], map[], [GoneB(x)])) }

  function Later14(x: Scene): Da {
    Reread(x).(tracker := Holding([], [CommB(x)], [], [], map[], [GoneB(x)]), challengeOrigin := 14, commitmentOrigin := 14)
  }

  // ---------------------------------------------------------------- the steps

  lemma StepRead(x: Scene)
    requires x.Ok()
    ensures GetInput(NewDa(true, 10, 10), x.hash, x.b, REF_B, Found(x.inputB), None) == (Read1(x), Input(x.inputB))
  {
    assert [] + [CommB(x)] == [CommB(x)];
  }

  lemma StepChallenge(x: Scene)
    requires x.Ok()
    ensures AdvanceL1Origin(Read1(x), x.hash, 3, Block3(x).fetched, None) == (Challenged3(x), Advanced)
  {
    hide AdvanceL1Origin;
    Quiet(Read1(x), x.hash, 3, Challenged(x.b, 2), Challenged3(x).tracker);
  }

  lemma Close13(x: Scene)
    requires x.Ok()
    ensures ExpireChallenges(Challenged3(x).tracker, 13) == Closed13(x)
  {
    var s := Challenged3(x).tracker;
    assert [0][1..] == [];
    assert DueChallenges(s, [], 13) == 0;
    assert DueChallenges(s, [0], 13) == 1;
    assert MarkExpired(s.store, s.challenges[..1]) == [GoneB(x)];
  }

  lemma Expire13(x: Scene)
    requires x.Ok()
    ensures ExpireCommitments(Closed13(x), 13) == (Reorg13(x).tracker, true)
  {
    var s := Closed13(x);
    assert [CommB(x)][1..] == [];
    assert DueCommitments(s, [], 13) == 0;
    assert DueCommitments(s, [CommB(x)], 13) == 1;
    assert s.Unresolved(s.commitments[0]);
    assert ExpireCommitments(s, 13).0.expiredCommitments == [CommB(x)];
  }

  lemma StepReorg(x: Scene)
    requires x.Ok()
    ensures AdvanceL1Origin(Challenged3(x), x.hash, 13, BLOCK_13.fetched, None) == (Reorg13(x), ReorgRequired)
  {
    hide ExpireChallenges, ExpireCommitments;
    assert LoadEvents(Challenged3(x).tracker, x.hash, 13, []) == Challenged3(x).tracker;
    Close13(x);
    Expire13(x);
  }

  lemma StepFinal13(x: Scene)
    requires x.Ok()
    ensures Finalize(Reset13(x), FINAL) == Final13(x)
  {
    hide PruneCommitments;
    var s := Reset13(x).tracker;
    NoCommitmentPruned(s, 13);
    FirstDue(s, 0, 13);
    var gone := set i | 0 <= i < 1 :: s.store[s.expiredChallenges[i]].Key();
    assert gone == {(x.b, 2)} by {
      assert s.store[s.expiredChallenges[0]].Key() == (x.b, 2);
    }
    assert s.index - gone == map[];
  }

  /** The commitment is read as if it had never been challenged. */
  lemma StepReread(x: Scene)
    requires x.Ok()
    ensures GetInput(Final13(x), x.hash, x.b, REF_B, Found(x.inputB), None) == (Reread(x), Input(x.inputB))
  {
    assert [] + [CommB(x)] == [CommB(x)];
  }

  lemma Expire14(x: Scene)
    requires x.Ok()
    ensures ExpireChallenges(Reread(x).tracker, 14) == Reread(x).tracker
    ensures ExpireCommitments(Reread(x).tracker, 14) == (Later14(x).tracker, false)
  {
    var s := Reread(x).tracker;
    assert MarkExpired(s.store, s.challenges[..0]) == s.store;
    assert [CommB(x)][1..] == [];
    assert DueCommitments(s, [], 14) == 0;
    assert DueCommitments(s, [CommB(x)], 14) == 1;
    assert !s.Unresolved(s.commitments[0]);
    assert ExpireCommitments(s, 14).0.expiredCommitments == [CommB(x)];
  }

  lemma StepLater(x: Scene)
    requires x.Ok()
    ensures AdvanceL1Origin(Reread(x), x.hash, 14, LATER.fetched, None) == (Later14(x), Advanced)
  {
    hide ExpireChallenges, ExpireCommitments, AdvanceL1Origin;
    var s := Reread(x).tracker;
    assert LoadEvents(s, x.hash, 14, []) == s;
    Expire14(x);
    AdvanceTo(Reread(x), x.hash, 14, [], s, Later14(x).tracker);
  }

  lemma StepFinal14(x: Scene)
    requires x.Ok()
    ensures Finalize(Later14(x), FINAL_14).finalizedHead == REF_B
  {
    var s := Later14(x).tracker;
    assert [CommB(x)][1..] == [];
    assert DueCommitments(s, [], 14) == 0;
    assert DueCommitments(s, [CommB(x)], 14) == 1;
  }

  // ---------------------------------------------------------------- reachability

  lemma CarefulRead(x: Scene)
    requires x.Ok()
    ensures var w := World(NewDa(true, 10, 10), [], -1);
      Careful(w, x.hash, ReadB(x)) && Step(w, x.hash, ReadB(x)) == World(Read1(x), [], -1)
  {
    StepRead(x);
  }

  lemma CarefulChallenge(x: Scene)
    requires x.Ok()
    ensures var w := World(Read1(x), [], -1);
      Careful(w, x.hash, Block3(x)) && Step(w, x.hash, Block3(x)) == World(Challenged3(x), Log3(x), -1)
  {
    hide AdvanceL1Origin, EventsOk, Entries;
    OneEvent(Read1(x).tracker, x.hash, [], 3, Challenged(x.b, 2));
    StepChallenge(x);
  }

  lemma CarefulReorg(x: Scene)
    requires x.Ok()
    ensures var w := World(Challenged3(x), Log3(x), -1);
      Careful(w, x.hash, BLOCK_13) && Step(w, x.hash, BLOCK_13) == World(Reorg13(x), Log3(x), -1)
  {
    hide AdvanceL1Origin;
    StepReorg(x);
    assert Log3(x) + Entries(13, []) == Log3(x);
  }

  lemma CarefulReset(x: Scene)
    requires x.Ok()
    ensures var w := World(Reorg13(x), Log3(x), -1);
      Careful(w, x.hash, RESET) && Step(w, x.hash, RESET) == World(Reset13(x), Log3(x), -1)
  {
  }

  lemma CarefulFinalize(x: Scene)
    requires x.Ok()
    ensures var w := World(Reset13(x), Log3(x), -1);
      Careful(w, x.hash, FINALIZE) && Step(w, x.hash, FINALIZE) == World(Final13(x), Log3(x), 13)
  {
    hide Finalize;
    StepFinal13(x);
  }

  /** Care is taken all the way to the finalization that prunes the challenge. */
  lemma StaleReadIsReachable(x: Scene)
    requires x.Ok()
    ensures CarefullyReaches(true, 10, 10, x.hash, [ReadB(x), Block3(x), BLOCK_13, RESET, FINALIZE], World(Final13(x), Log3(x), 13))
  {
    hide FinalInv, Careful, Step, CarefullyReaches;
    CarefulStart(true, 10, 10, x.hash);
    CarefulRead(x);
    CarefullyOn(true, 10, 10, x.hash, [], World(NewDa(true, 10, 10), [], -1), ReadB(x), World(Read1(x), [], -1));
    var ops := [] + [ReadB(x)];
    CarefulChallenge(x);
    CarefullyOn(true, 10, 10, x.hash, ops, World(Read1(x), [], -1), Block3(x), World(Challenged3(x), Log3(x), -1));
    CarefulReorg(x);
    CarefullyOn(true, 10, 10, x.hash, ops + [Block3(x)], World(Challenged3(x), Log3(x), -1), BLOCK_13, World(Reorg13(x), Log3(x), -1));
    CarefulReset(x);
    CarefullyOn(true, 10, 10, x.hash, ops + [Block3(x)] + [BLOCK_13], World(Reorg13(x), Log3(x), -1), RESET, World(Reset13(x), Log3(x), -1));
    CarefulFinalize(x);
    CarefullyOn(true, 10, 10, x.hash, ops + [Block3(x)] + [BLOCK_13] + [RESET], World(Reset13(x), Log3(x), -1), FINALIZE, World(Final13(x), Log3(x), 13));
    assert ops + [Block3(x)] + [BLOCK_13] + [RESET] + [FINALIZE] == [ReadB(x), Block3(x), BLOCK_13, RESET, FINALIZE];
  }

  /** The next read, the block after it and its finalization are prompt, and the finalization forgets no active challenge. */
  lemma StepsArePrompt(x: Scene)
    requires x.Ok()
    ensures Prompt(World(Final13(x), Log3(x), 13), x.hash, ReadB(x))
    ensures Step(World(Final13(x), Log3(x), 13), x.hash, ReadB(x)) == World(Reread(x), Log3(x), 13)
    ensures Prompt(World(Reread(x), Log3(x), 13), x.hash, LATER)
    ensures Step(World(Reread(x), Log3(x), 13), x.hash, LATER) == World(Later14(x), Log3(x), 13)
    ensures Prompt(World(Later14(x), Log3(x), 13), x.hash, OpFinalize(FINAL_14)) && ForgetsNone(Later14(x), 14)
  {
    hide AdvanceL1Origin;
    StepReread(x);
    StepLater(x);
    assert Log3(x) + Entries(14, []) == Log3(x);
  }

  /** The second read answers with data, no reorg follows, and the commitment is reported final though never settled. */
  lemma StaleReadFinalizes(x: Scene, b: int)
    requires x.Ok()
    ensures GetInput(Final13(x), x.hash, x.b, REF_B, Found(x.inputB), None) == (Reread(x), Input(x.inputB))
    ensures AdvanceL1Origin(Reread(x), x.hash, 14, LATER.fetched, None) == (Later14(x), Advanced)
    ensures Finalize(Later14(x), FINAL_14).finalizedHead == REF_B == CommB(x).inclusion
    ensures !Settled(x.hash, Log3(x), CommB(x), 10, b)
  {
    hide AdvanceL1Origin, GetInput, Finalize;
    StepReread(x);
    StepLater(x);
    StepFinal14(x);
    assert Creates(Log3(x)[0], CommB(x).Key());
  }
}
