/**
 What the runs with two commitments have in common: the commitments, the inputs
 they open to, and how single L1 blocks are worked through.
 */
module DaScene {
  import opened BatcherTypes
  import opened Commitments
  import opened DaState
  import opened DaLog
  import opened DaLogSteps
  import opened DaManager
  import opened DaRuns

  /** Two commitments as the decoder accepts them, and the inputs behind them. */
  datatype Scene = Scene(a: Comm, b: Comm, inputA: Bytes, inputB: Bytes, hash: HashFn)
  {
    predicate Ok() {
      && a.Keccak? && b.Keccak? && a.Valid() && b.Valid() && a != b
      && a.Verify(hash, inputA) && b.Verify(hash, inputB)
    }
  }

  /** There are such scenes. */
  function SomeScene(): (x: Scene)
    ensures x.Ok()
  {
    var dataA: Bytes, dataB: Bytes := seq(32, _ => 1 as byte), seq(32, _ => 2 as byte);
    assert dataA[0] != dataB[0];
    Scene(Keccak(dataA), Keccak(dataB), [7], [8], input => if input == [7] then dataA else dataB)
  }

  const NONE := BlockRef(0, 0)

  lemma Load1(s: Tracker, hash: HashFn, at: nat, e: Event)
    requires s.WellFormed()
    ensures LoadEvents(s, hash, at, [e]) == ApplyEvent(s, hash, at, e)
  {
    assert [e][..0] == [];
    assert LoadEvents(s, hash, at, [e][..0]) == s;
  }

  /** Nothing is due, so neither queue moves. */
  lemma NoneDue(s: Tracker, at: nat)
    requires s.WellFormed() && s.challenges != [] && s.commitments != []
    requires at < s.store[s.challenges[0]].resolveEnd && at < s.ExpiresAt(s.commitments[0])
    ensures ExpireChallenges(s, at) == s && ExpireCommitments(s, at) == (s, false)
  {
    hide ExpireCommitments, ExpireChallenges;
    NoChallengeDue(s, at);
    NoCommitmentDue(s, at);
  }

  lemma NoChallengeDue(s: Tracker, at: nat)
    requires s.WellFormed() && s.challenges != [] && at < s.store[s.challenges[0]].resolveEnd
    ensures ExpireChallenges(s, at) == s
  {
    assert DueChallenges(s, s.challenges, at) == 0;
    assert MarkExpired(s.store, s.challenges[..0]) == s.store;
  }

  lemma NoCommitmentDue(s: Tracker, at: nat)
    requires s.WellFormed() && s.commitments != [] && at < s.ExpiresAt(s.commitments[0])
    ensures ExpireCommitments(s, at) == (s, false)
  {
    var (s', reorg) := ExpireCommitments(s, at);
    assert DueCommitments(s, s.commitments, at) == 0;
    assert s'.commitments == s.commitments && s'.expiredCommitments == s.expiredCommitments;
  }

  lemma NoCommitmentPruned(s: Tracker, at: nat)
    requires s.WellFormed() && s.expiredCommitments == []
    ensures PruneCommitments(s, at) == s
  {
    assert s.expiredCommitments[0..] == [];
  }

  /** A queue of one closed challenge. */
  lemma FirstDue(s: Tracker, i: nat, at: nat)
    requires i < |s.store| && s.store[i].resolveEnd <= at
    ensures DueChallenges(s, [i], at) == 1
  {
    assert [i][1..] == [];
    assert DueChallenges(s, [], at) == 0;
  }

  /** One L1 block, from its events to both origins. */
  lemma AdvanceTo(d: Da, hash: HashFn, at: nat, es: seq<Event>, s1: Tracker, s2: Tracker)
    requires d.keccakMode && d.tracker.WellFormed() && d.challengeOrigin < at && d.commitmentOrigin < at
    requires s1 == LoadEvents(d.tracker, hash, at, es)
    requires ExpireChallenges(s1, at).WellFormed() && ExpireCommitments(ExpireChallenges(s1, at), at) == (s2, false)
    requires !s2.NoCommitments()
    ensures AdvanceL1Origin(d, hash, at, Some(es), None) ==
      (d.(tracker := s2, challengeOrigin := at, commitmentOrigin := at), Advanced)
  {
    hide LoadEvents, ExpireChallenges, ExpireCommitments;
  }

  /** A block with one event after which nothing is due. */
  lemma Quiet(d: Da, hash: HashFn, at: nat, e: Event, s1: Tracker)
    requires d.keccakMode && d.tracker.WellFormed() && d.challengeOrigin < at && d.commitmentOrigin < at
    requires ApplyEvent(d.tracker, hash, at, e) == s1 && s1.WellFormed() && s1.challenges != [] && s1.commitments != []
    requires at < s1.store[s1.challenges[0]].resolveEnd && at < s1.ExpiresAt(s1.commitments[0])
    ensures AdvanceL1Origin(d, hash, at, Some([e]), None) ==
      (d.(tracker := s1, challengeOrigin := at, commitmentOrigin := at), Advanced)
  {
    hide LoadEvents, AdvanceL1Origin, ApplyEvent, ExpireChallenges, ExpireCommitments;
    Load1(d.tracker, hash, at, e);
    NoneDue(s1, at);
    AdvanceTo(d, hash, at, [e], s1, s1);
  }

  lemma OneEvent(s: Tracker, hash: HashFn, log: seq<Entry>, at: nat, e: Event)
    requires EventOk(s, hash, log, at, e)
    ensures EventsOk(s, hash, log, at, [e]) && Entries(at, [e]) == [Entry(at, e)]
  {
    assert [e][..0] == [];
    assert log + Entries(at, [e][..0]) == log;
  }
}
