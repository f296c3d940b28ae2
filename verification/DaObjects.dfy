/**
 The challenge tracker as an object whose queues and lookup map share challenge
 objects. Every method takes the tracker's value to the one its specification
 function gives.
 */
module DaObjects {
  import opened BatcherTypes
  import opened Commitments
  import Spec = DaState
  import opened DaState

  class ChallengeRecord {
    const comm: Comm
    const block: nat
    const resolveEnd: nat
    var input: Bytes
    var status: Status

    constructor (comm: Comm, block: nat, resolveEnd: nat)
      ensures View() == Challenge(comm, block, resolveEnd, [], Active)
    {
      this.comm, this.block, this.resolveEnd := comm, block, resolveEnd;
      input, status := [], Active;
    }

    ghost function View(): Challenge
      reads this
    {
      Challenge(comm, block, resolveEnd, input, status)
    }
  }

  class State {
    const challengeWindow: nat
    const resolveWindow: nat
    var commitments: seq<Commitment>
    var expiredCommitments: seq<Commitment>
    var challenges: seq<ChallengeRecord>
    var expiredChallenges: seq<ChallengeRecord>
    var challengesMap: map<Key, ChallengeRecord>
    var lastPruned: BlockRef
    ghost var records: seq<ChallengeRecord>  // every challenge since the last reset, in order of creation
    ghost var value: Tracker

    /** The queues and the map hold the records the value's positions stand for. */
    ghost predicate Linked()
      reads this
    {
      && value.WellFormed() && |records| == |value.store|
      && (challengeWindow, resolveWindow) == (value.challengeWindow, value.resolveWindow)
      && (commitments, expiredCommitments, lastPruned) == (value.commitments, value.expiredCommitments, value.lastPruned)
      && |challenges| == |value.challenges|
      && (forall i :: 0 <= i < |challenges| ==> challenges[i] == records[value.challenges[i]])
      && |expiredChallenges| == |value.expiredChallenges|
      && (forall i :: 0 <= i < |expiredChallenges| ==> expiredChallenges[i] == records[value.expiredChallenges[i]])
      && challengesMap.Keys == value.index.Keys
      && (forall k :: k in value.index ==> challengesMap[k] == records[value.index[k]])
    }

    /** The records are distinct objects and hold the value's challenges. */
    ghost predicate Stored()
      reads `records, `value, records
    {
      && |records| == |value.store|
      && (forall i :: 0 <= i < |records| ==> records[i].View() == value.store[i])
      && (forall i, j :: 0 <= i < j < |records| ==> records[i] != records[j])
    }

    ghost predicate Valid()
      reads this, records
    {
      Linked() && Stored()
    }

    constructor (challengeWindow: nat, resolveWindow: nat)
      ensures Valid() && value == NewTracker(challengeWindow, resolveWindow)
    {
      this.challengeWindow, this.resolveWindow := challengeWindow, resolveWindow;
      commitments, expiredCommitments, challenges, expiredChallenges := [], [], [], [];
      challengesMap, lastPruned, records := map[], BlockRef(0, 0), [];
      value := NewTracker(challengeWindow, resolveWindow);
    }

    method ClearCommitments()
      requires Valid()
      modifies this
      ensures Valid() && value == Spec.ClearCommitments(old(value)) && records == old(records)
    {
      commitments, expiredCommitments := [], [];
      value := Spec.ClearCommitments(value);
    }

    method Reset()
      requires Valid()
      modifies this
      ensures Valid() && value == ResetTracker(old(value))
    {
      commitments, expiredCommitments, challenges, expiredChallenges := [], [], [], [];
      challengesMap, records := map[], [];
      value := ResetTracker(value);
    }

    method TrackCommitment(comm: Comm, inclusion: BlockRef)
      requires Valid()
      modifies this
      ensures Valid() && value == Spec.TrackCommitment(old(value), comm, inclusion) && records == old(records)
    {
      commitments := commitments + [Commitment(comm, inclusion, inclusion.number + challengeWindow)];
      value := Spec.TrackCommitment(value, comm, inclusion);
    }

    method CreateChallenge(comm: Comm, at: nat, block: nat)
      requires Valid()
      modifies this
      ensures Valid() && value == Spec.CreateChallenge(old(value), comm, at, block)
      ensures fresh(set r | r in records && r !in old(records))
    {
      var c := new ChallengeRecord(comm, block, at + resolveWindow);
      challenges := challenges + [c];
      challengesMap := challengesMap[(comm, block) := c];
      records := records + [c];
      value := Spec.CreateChallenge(value, comm, at, block);
    }

    /** Resolves whatever is tracked for the commitment, also after it expired. */
    method ResolveChallenge(comm: Comm, block: nat, input: Bytes) returns (ok: bool)
      requires Valid()
      modifies this, records
      ensures Valid() && value == Spec.ResolveChallenge(old(value), comm, block, input) && records == old(records)
      ensures ok == ((comm, block) in old(value).index)
    {
      if (comm, block) !in challengesMap {
        return false;
      }
      var c := challengesMap[(comm, block)];
      c.input, c.status := input, Resolved;
      value := Spec.ResolveChallenge(value, comm, block, input);
      return true;
    }

    method GetChallengeStatus(comm: Comm, block: nat) returns (status: Status)
      requires Valid()
      ensures status == value.StatusOf((comm, block))
    {
      if (comm, block) in challengesMap {
        status := challengesMap[(comm, block)].status;
      } else {
        status := Uninitialized;
      }
    }

    /** Moves the oldest challenge to the expired queue, marking it unless it was resolved. */
    method PopChallenge()
      requires Valid() && challenges != []
      modifies this, records
      ensures Valid() && value == PopOne(old(value)) && records == old(records)
    {
      var c := challenges[0];
      ghost var i := value.challenges[0];
      expiredChallenges := expiredChallenges + [c];
      challenges := challenges[1..];
      if c.status == Active {
        c.status := Expired;
      }
      value := PopOne(value);
    }

    /** Stops at the first challenge that can still be resolved. */
    method ExpireChallenges(origin: nat)
      requires Valid()
      modifies this, records
      ensures Valid() && value == Spec.ExpireChallenges(old(value), origin) && records == old(records)
    {
      hide Linked, Stored;
      ghost var s, n := value, 0;
      HeadOf();
      AfterNone(s);
      while challenges != [] && challenges[0].resolveEnd <= origin
        invariant Valid() && records == old(records)
        invariant n <= DueChallenges(s, s.challenges, origin) && value == AfterExpiring(s, n)
        invariant challenges != [] <==> value.challenges != []
        invariant challenges != [] ==> challenges[0].resolveEnd == value.store[value.challenges[0]].resolveEnd
        decreases |s.challenges| - n
      {
        AfterOneMore(s, n, origin);
        PopChallenge();
        n := n + 1;
        HeadOf();
      }
      AfterAll(s, n, origin);
    }

    /** When a commitment expires, and whether its challenge is unresolved. */
    method Expiry(c: Commitment) returns (expiresAt: nat, unresolved: bool)
      requires Valid()
      ensures expiresAt == value.ExpiresAt(c) && unresolved == value.Unresolved(c)
    {
      expiresAt, unresolved := c.windowEnd, false;
      if c.Key() in challengesMap {
        var ch := challengesMap[c.Key()];
        expiresAt, unresolved := ch.resolveEnd, ch.status != Resolved;
      }
    }

    method PopCommitment()
      requires Valid() && commitments != []
      modifies this
      ensures Valid() && records == old(records) && old(value.commitments) != []
      ensures value == old(value).(expiredCommitments := old(value.expiredCommitments) + [old(value.commitments)[0]],
                                   commitments := old(value.commitments)[1..])
    {
      expiredCommitments := expiredCommitments + [commitments[0]];
      commitments := commitments[1..];
      value := value.(expiredCommitments := expiredCommitments, commitments := commitments);
    }

    /** Stops at the first commitment that has not expired; asks for a reorg if an expired one was challenged in vain. */
    method ExpireCommitments(origin: nat) returns (reorg: bool)
      requires Valid()
      modifies this
      ensures Valid() && (value, reorg) == Spec.ExpireCommitments(old(value), origin) && records == old(records)
    {
      hide Linked, Stored;
      ghost var s, n := value, 0;
      reorg := false;
      SameCommitments();
      assert s.commitments[0..] == s.commitments && s.expiredCommitments + s.commitments[..0] == s.expiredCommitments;
      while commitments != []
        invariant Valid() && records == old(records) && s.WellFormed() && commitments == value.commitments
        invariant n <= DueCommitments(s, s.commitments, origin) && value == Moved(s, n)
        invariant reorg == exists i :: 0 <= i < n && s.Unresolved(s.commitments[i])
        invariant commitments == [] ==> n == DueCommitments(s, s.commitments, origin)
        decreases |s.commitments| - n
      {
        var expiresAt, unresolved := Expiry(commitments[0]);
        SameLookups(s, n);
        assert commitments[0] == s.commitments[n];
        if expiresAt > origin {
          break;
        }
        PopCommitment();
        MovedOneMore(s, n);
        n := n + 1;
        SameCommitments();
        if unresolved {
          reorg := true;
        }
      }
    }

    lemma SameCommitments()
      requires Valid()
      ensures value.WellFormed() && commitments == value.commitments && expiredCommitments == value.expiredCommitments
    {
    }

    method PopExpiredCommitment()
      requires Valid() && expiredCommitments != []
      modifies this
      ensures Valid() && records == old(records) && old(value.expiredCommitments) != []
      ensures value == old(value).(expiredCommitments := old(value.expiredCommitments)[1..],
                                   lastPruned := old(value.expiredCommitments)[0].inclusion)
    {
      lastPruned := expiredCommitments[0].inclusion;
      expiredCommitments := expiredCommitments[1..];
      value := value.(expiredCommitments := expiredCommitments, lastPruned := lastPruned);
    }

    method PruneCommitments(origin: nat)
      requires Valid()
      modifies this
      ensures Valid() && value == Spec.PruneCommitments(old(value), origin) && records == old(records)
    {
      hide Linked, Stored;
      ghost var s, n := value, 0;
      SameCommitments();
      assert s.expiredCommitments[0..] == s.expiredCommitments;
      while expiredCommitments != []
        invariant Valid() && records == old(records) && s.WellFormed() && expiredCommitments == value.expiredCommitments
        invariant n <= DueCommitments(s, s.expiredCommitments, origin) && value == Dropped(s, n)
        invariant expiredCommitments == [] ==> n == DueCommitments(s, s.expiredCommitments, origin)
        decreases |s.expiredCommitments| - n
      {
        var expiresAt, _ := Expiry(expiredCommitments[0]);
        assert value.ExpiresAt(expiredCommitments[0]) == s.ExpiresAt(s.expiredCommitments[n]);
        if expiresAt > origin {
          break;
        }
        PopExpiredCommitment();
        n := n + 1;
        SameCommitments();
      }
    }

    method PopExpiredChallenge()
      requires Valid() && expiredChallenges != []
      modifies this
      ensures Valid() && records == old(records) && old(value.expiredChallenges) != [] && old(value.WellFormed())
      ensures value == old(value).(expiredChallenges := old(value.expiredChallenges)[1..],
                                   index := old(value.index) - {old(value.store[value.expiredChallenges[0]]).Key()})
    {
      var c := expiredChallenges[0];
      ghost var key := value.store[value.expiredChallenges[0]].Key();
      assert key == (c.comm, c.block) by {
        assert records[value.expiredChallenges[0]] == c && c.View().Key() == key;
      }
      expiredChallenges := expiredChallenges[1..];
      challengesMap := challengesMap - {(c.comm, c.block)};
      value := value.(expiredChallenges := value.expiredChallenges[1..], index := value.index - {key});
    }

    /** Stops at the first challenge whose window is not over, and forgets the ones before it. */
    method PruneChallenges(origin: nat)
      requires Valid()
      modifies this
      ensures Valid() && value == Spec.PruneChallenges(old(value), origin) && records == old(records)
    {
      hide Linked, Stored;
      ghost var s, n := value, 0;
      ExpiredHeadOf();
      ForgottenNone(s);
      while expiredChallenges != [] && expiredChallenges[0].resolveEnd <= origin
        invariant Valid() && records == old(records) && s.WellFormed()
        invariant n <= DueChallenges(s, s.expiredChallenges, origin) && value == Forgotten(s, n)
        invariant expiredChallenges != [] <==> value.expiredChallenges != []
        invariant expiredChallenges != [] ==> expiredChallenges[0].resolveEnd == value.store[value.expiredChallenges[0]].resolveEnd
        decreases |s.expiredChallenges| - n
      {
        ForgottenOneMore(s, n);
        PopExpiredChallenge();
        n := n + 1;
        ExpiredHeadOf();
      }
    }

    lemma ExpiredHeadOf()
      requires Valid()
      ensures value.WellFormed() && (expiredChallenges != [] <==> value.expiredChallenges != [])
      ensures expiredChallenges != [] ==> expiredChallenges[0].resolveEnd == value.store[value.expiredChallenges[0]].resolveEnd
    {
    }

    /** Commitments first, because they look up their challenges. */
    method Prune(origin: nat)
      requires Valid()
      modifies this
      ensures Valid() && value == PruneTracker(old(value), origin) && records == old(records)
    {
      hide Linked, Stored, Spec.PruneCommitments, Spec.PruneChallenges;
      PruneCommitments(origin);
      PruneChallenges(origin);
    }

    lemma RecordOf(k: Key)
      requires Valid() && k in value.index
      ensures value.WellFormed() && k in challengesMap && challengesMap[k].View() == value.store[value.index[k]]
    {
    }

    lemma Counts()
      requires Valid()
      ensures lastPruned == value.lastPruned && challengeWindow == value.challengeWindow
      ensures value.NoCommitments() <==> challenges == [] && expiredChallenges == [] && commitments == [] && expiredCommitments == []
    {
    }

    /** What the head of the open queue is in the value. */
    lemma HeadOf()
      requires Valid()
      ensures value.WellFormed() && (challenges != [] <==> value.challenges != [])
      ensures challenges != [] ==> challenges[0].resolveEnd == value.store[value.challenges[0]].resolveEnd
    {
    }
  }

  /** The value once the `n` oldest commitments are moved to the expired ones. */
  ghost function Moved(s: Tracker, n: nat): Tracker
    requires n <= |s.commitments|
  {
    s.(expiredCommitments := s.expiredCommitments + s.commitments[..n], commitments := s.commitments[n..])
  }

  lemma SameLookups(s: Tracker, n: nat)
    requires s.WellFormed() && n < |s.commitments|
    ensures Moved(s, n).WellFormed() && Moved(s, n).commitments[0] == s.commitments[n]
    ensures Moved(s, n).ExpiresAt(s.commitments[n]) == s.ExpiresAt(s.commitments[n])
    ensures Moved(s, n).Unresolved(s.commitments[n]) == s.Unresolved(s.commitments[n])
  {
  }

  lemma MovedOneMore(s: Tracker, n: nat)
    requires n < |s.commitments|
    ensures var m := Moved(s, n);
      Moved(s, n + 1) == m.(expiredCommitments := m.expiredCommitments + [m.commitments[0]], commitments := m.commitments[1..])
  {
    assert s.commitments[..n + 1] == s.commitments[..n] + [s.commitments[n]];
  }

  /** The value once the `n` oldest expired commitments are dropped. */
  ghost function Dropped(s: Tracker, n: nat): Tracker
    requires n <= |s.expiredCommitments|
  {
    s.(expiredCommitments := s.expiredCommitments[n..],
       lastPruned := if n == 0 then s.lastPruned else s.expiredCommitments[n - 1].inclusion)
  }

  /** The value once the `n` oldest expired challenges are forgotten. */
  ghost function Forgotten(s: Tracker, n: nat): Tracker
    requires s.WellFormed() && n <= |s.expiredChallenges|
  {
    s.(expiredChallenges := s.expiredChallenges[n..],
       index := s.index - (set i | 0 <= i < n :: s.store[s.expiredChallenges[i]].Key()))
  }

  lemma ForgottenNone(s: Tracker)
    requires s.WellFormed()
    ensures Forgotten(s, 0) == s
  {
    var f := Forgotten(s, 0);
    assert f.index == s.index && f.expiredChallenges == s.expiredChallenges;
  }

  lemma ForgottenOneMore(s: Tracker, n: nat)
    requires s.WellFormed() && n < |s.expiredChallenges|
    ensures var f := Forgotten(s, n);
      && f.expiredChallenges != [] && f.expiredChallenges[0] == s.expiredChallenges[n]
      && Forgotten(s, n + 1) == f.(expiredChallenges := f.expiredChallenges[1..],
                                   index := f.index - {s.store[s.expiredChallenges[n]].Key()})
  {
    var gone := set i | 0 <= i < n :: s.store[s.expiredChallenges[i]].Key();
    assert (set i | 0 <= i < n + 1 :: s.store[s.expiredChallenges[i]].Key()) == gone + {s.store[s.expiredChallenges[n]].Key()};
  }

  function PopOne(s: Tracker): Tracker
    requires s.WellFormed() && s.challenges != []
  {
    var i := s.challenges[0];
    s.(expiredChallenges := s.expiredChallenges + [i], challenges := s.challenges[1..], store := s.store[i := ExpireOne(s.store[i])])
  }

  /** The value once the `n` oldest challenges are moved. */
  ghost function AfterExpiring(s: Tracker, n: nat): Tracker
    requires n <= |s.challenges|
  {
    s.(expiredChallenges := s.expiredChallenges + s.challenges[..n], challenges := s.challenges[n..],
       store := MarkExpired(s.store, s.challenges[..n]))
  }

  lemma AfterNone(s: Tracker)
    ensures AfterExpiring(s, 0) == s
  {
    assert MarkExpired(s.store, s.challenges[..0]) == s.store;
  }

  lemma AfterOneMore(s: Tracker, n: nat, origin: nat)
    requires s.WellFormed() && n <= DueChallenges(s, s.challenges, origin) && n < |s.challenges|
    requires var s' := AfterExpiring(s, n); s'.challenges != [] && s'.store[s'.challenges[0]].resolveEnd <= origin
    ensures n < DueChallenges(s, s.challenges, origin)
    ensures AfterExpiring(s, n).WellFormed() && PopOne(AfterExpiring(s, n)) == AfterExpiring(s, n + 1)
  {
    hide DueChallenges, ExpireOne;
    var i := s.challenges[n];
    assert s.challenges[..n + 1] == s.challenges[..n] + [i];
    MarkOneMore(s.store, s.challenges[..n], i);
  }

  lemma MarkOneMore(store: seq<Challenge>, ids: seq<nat>, i: nat)
    requires i < |store|
    ensures var r := MarkExpired(store, ids); r[i := ExpireOne(r[i])] == MarkExpired(store, ids + [i])
  {
    var r, r' := MarkExpired(store, ids), MarkExpired(store, ids + [i]);
    assert forall j :: 0 <= j < |store| ==> r[i := ExpireOne(r[i])][j] == r'[j];
  }

  lemma AfterAll(s: Tracker, n: nat, origin: nat)
    requires s.WellFormed() && n <= DueChallenges(s, s.challenges, origin)
    requires var s' := AfterExpiring(s, n);
      s'.WellFormed() && (s'.challenges == [] || origin < s'.store[s'.challenges[0]].resolveEnd)
    ensures AfterExpiring(s, n) == ExpireChallenges(s, origin)
  {
    hide DueChallenges;
    var s' := AfterExpiring(s, n);
    if n < |s.challenges| {
      assert s'.challenges[0] == s.challenges[n];
      assert s'.store[s.challenges[n]].resolveEnd == s.store[s.challenges[n]].resolveEnd;
    }
    assert n == DueChallenges(s, s.challenges, origin);
  }
}
