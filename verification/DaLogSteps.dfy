/**
 Every event, expiry and pruning step keeps the tracker in agreement with the log.
 */
module DaLogSteps {
  import opened BatcherTypes
  import opened Commitments
  import opened DaState
  import opened DaLog

  lemma NewTrackerInv(challengeWindow: nat, resolveWindow: nat, hash: HashFn, b: nat)
    ensures TrackerInv(NewTracker(challengeWindow, resolveWindow), hash, [], b, -1, b)
  {
  }

  lemma ResetInv(s: Tracker, hash: HashFn, b: nat)
    ensures TrackerInv(ResetTracker(s), hash, [], b, -1, b)
  {
  }

  lemma LogExtended(hash: HashFn, log: seq<Entry>, e: Entry)
    ensures Positions(log + [e]) == (if e.event.Challenged? then Positions(log) + [|log|] else Positions(log))
    ensures forall n: nat, k :: ResolvedAfter(hash, log + [e], k, n) <==>
      (ResolvedAfter(hash, log, k, n) || (n < |log| && Resolves(hash, e, k)))
  {
    var log' := log + [e];
    assert log'[..|log|] == log;
    forall n: nat, k: Key
      ensures ResolvedAfter(hash, log', k, n) <==> (ResolvedAfter(hash, log, k, n) || (n < |log| && Resolves(hash, e, k)))
    {
      if ResolvedAfter(hash, log, k, n) {
        var m :| n < m < |log| && Resolves(hash, log[m], k);
        assert log'[m] == log[m];
      }
      if n < |log| && Resolves(hash, e, k) {
        assert log'[|log|] == e;
      }
    }
  }

  /** The discipline of the contract for one more event: no second challenge for the same key. */
  ghost predicate Fresh(log: seq<Entry>, e: Event) {
    e.Challenged? ==> Challengeless(log, (e.comm, e.block))
  }

  lemma FreshUnique(log: seq<Entry>, e: Entry)
    requires UniqueCreates(log) && Fresh(log, e.event)
    ensures UniqueCreates(log + [e])
  {
    var log' := log + [e];
    forall n, m, k | 0 <= n < |log'| && 0 <= m < |log'| && Creates(log'[n], k) && Creates(log'[m], k)
      ensures n == m
    {
      assert n < |log| ==> log'[n] == log[n];
      assert m < |log| ==> log'[m] == log[m];
    }
  }

  lemma CreateStructure(s: Tracker, b: nat, pruned: int, hi: nat, at: nat, comm: Comm, block: nat)
    requires s.WellFormed() && QueuesInOrder(s) && SortedByEnd(s, hi) && CutAt(s, b, pruned) && b < at && hi <= at
    ensures var s' := CreateChallenge(s, comm, at, block);
      s'.WellFormed() && QueuesInOrder(s') && SortedByEnd(s', at) && CutAt(s', b, pruned)
  {
  }

  lemma CreateIndex(s: Tracker, at: nat, comm: Comm, block: nat)
    requires s.WellFormed() && QueuesInOrder(s) && IndexExact(s)
    requires (comm, block) !in s.index && forall i :: 0 <= i < |s.store| ==> s.store[i].Key() != (comm, block)
    ensures IndexExact(CreateChallenge(s, comm, at, block))
  {
  }

  lemma CreateStep(s: Tracker, hash: HashFn, log: seq<Entry>, b: nat, pruned: int, hi: nat, at: nat, e: Event)
    requires TrackerInv(s, hash, log, b, pruned, hi) && b < at && hi <= at && e.Challenged? && Fresh(log, e)
    ensures TrackerInv(ApplyEvent(s, hash, at, e), hash, log + [Entry(at, e)], b, pruned, at)
  {
    hide UniqueCreates, ResolvedAfter, Positions, Challengeless, QueuesInOrder, SortedByEnd, CutAt, IndexExact;
    var log' := log + [Entry(at, e)];
    var s' := ApplyEvent(s, hash, at, e);
    FreshUnique(log, Entry(at, e));
    LogExtended(hash, log, Entry(at, e));
    NotTracked(s, hash, log, b, pruned, hi, (e.comm, e.block));
    CreateStructure(s, b, pruned, hi, at, e.comm, e.block);
    CreateIndex(s, at, e.comm, e.block);
    forall i: nat | i < |s'.store|
      ensures Mirrors(s', hash, log', i)
    {
      if i < |s.store| {
        assert Mirrors(s, hash, log, i);
      } else {
        NothingAfterEnd(hash, log', s'.store[i].Key());
      }
    }
  }

  lemma NothingAfterEnd(hash: HashFn, log: seq<Entry>, k: Key)
    requires log != []
    ensures !ResolvedAfter(hash, log, k, |log| - 1)
  {
  }

  /** A key that was never challenged has no challenge object, pruned or not. */
  lemma NotTracked(s: Tracker, hash: HashFn, log: seq<Entry>, b: nat, pruned: int, hi: nat, k: Key)
    requires TrackerInv(s, hash, log, b, pruned, hi) && Challengeless(log, k)
    ensures k !in s.index && forall i :: 0 <= i < |s.store| ==> s.store[i].Key() != k
  {
    forall i: nat | i < |s.store|
      ensures s.store[i].Key() != k
    {
      assert Mirrors(s, hash, log, i);
    }
  }

  /** Resolving touches one object's input and status. */
  lemma ResolveEffect(s: Tracker, comm: Comm, block: nat, input: Bytes)
    requires s.WellFormed() && IndexExact(s)
    ensures var s' := ResolveChallenge(s, comm, block, input);
      && s' == s.(store := s'.store) && |s'.store| == |s.store|
      && forall i :: 0 <= i < |s.store| ==>
           && s'.store[i].Key() == s.store[i].Key() && s'.store[i].resolveEnd == s.store[i].resolveEnd
           && (s'.store[i].status == s.store[i].status || s'.store[i].status == Resolved)
           && (0 <= Pruned(s) <= i ==> (s'.store[i].status == Resolved <==>
                                     s.store[i].status == Resolved || s.store[i].Key() == (comm, block)))
  {
  }

  lemma ResolveStructure(s: Tracker, b: nat, pruned: int, hi: nat, comm: Comm, block: nat, input: Bytes)
    requires s.WellFormed() && QueuesInOrder(s) && SortedByEnd(s, hi) && CutAt(s, b, pruned) && IndexExact(s)
    ensures var s' := ResolveChallenge(s, comm, block, input);
      s'.WellFormed() && QueuesInOrder(s') && SortedByEnd(s', hi) && CutAt(s', b, pruned) && IndexExact(s')
  {
    hide ResolveChallenge;
    ResolveEffect(s, comm, block, input);
  }

  lemma ResolveStep(s: Tracker, hash: HashFn, log: seq<Entry>, b: nat, pruned: int, hi: nat, at: nat, e: Event)
    requires TrackerInv(s, hash, log, b, pruned, hi) && hi <= at && !e.Challenged?
    ensures TrackerInv(ApplyEvent(s, hash, at, e), hash, log + [Entry(at, e)], b, pruned, at)
  {
    hide UniqueCreates, ResolvedAfter, Positions, Challengeless, CutAt, IndexExact, ResolveChallenge;
    var log' := log + [Entry(at, e)];
    var s' := ApplyEvent(s, hash, at, e);
    FreshUnique(log, Entry(at, e));
    LogExtended(hash, log, Entry(at, e));
    if e.ResolvedBy? && e.input.Some? {
      ResolveStructure(s, b, pruned, hi, e.comm, e.block, e.input.value);
      ResolveEffect(s, e.comm, e.block, e.input.value);
      assert 0 <= Pruned(s);
    }
    forall i: nat | i < |s'.store|
      ensures Mirrors(s', hash, log', i)
    {
      assert Mirrors(s, hash, log, i);
    }
  }

  lemma EventStep(s: Tracker, hash: HashFn, log: seq<Entry>, b: nat, pruned: int, hi: nat, at: nat, e: Event)
    requires TrackerInv(s, hash, log, b, pruned, hi) && b < at && hi <= at && Fresh(log, e)
    ensures TrackerInv(ApplyEvent(s, hash, at, e), hash, log + [Entry(at, e)], b, pruned, at)
  {
    if e.Challenged? {
      CreateStep(s, hash, log, b, pruned, hi, at, e);
    } else {
      ResolveStep(s, hash, log, b, pruned, hi, at, e);
    }
  }

  // ---------------------------------------------------------------- blocks of events

  function Entries(at: nat, es: seq<Event>): seq<Entry> {
    seq(|es|, i requires 0 <= i < |es| => Entry(at, es[i]))
  }

  ghost predicate AllFresh(log: seq<Entry>, at: nat, es: seq<Event>)
    decreases |es|
  {
    es == [] ||
    (AllFresh(log, at, es[..|es| - 1]) && Fresh(log + Entries(at, es[..|es| - 1]), es[|es| - 1]))
  }

  lemma {:induction false} LoadStep(s: Tracker, hash: HashFn, log: seq<Entry>, b: nat, pruned: int, hi: nat, at: nat, es: seq<Event>)
    requires TrackerInv(s, hash, log, b, pruned, hi) && b < at && hi <= at && AllFresh(log, at, es)
    ensures TrackerInv(LoadEvents(s, hash, at, es), hash, log + Entries(at, es), b, pruned, at)
    decreases |es|
  {
    hide QueuesInOrder, SortedByEnd, CutAt, IndexExact, UniqueCreates, Mirrors, ApplyEvent, Fresh;
    if es == [] {
      assert log + Entries(at, es) == log;
      SortedHigher(s, hi, at);
    } else {
      var front, last := es[..|es| - 1], es[|es| - 1];
      LoadStep(s, hash, log, b, pruned, hi, at, front);
      EventStep(LoadEvents(s, hash, at, front), hash, log + Entries(at, front), b, pruned, at, at, last);
      assert log + Entries(at, es) == log + Entries(at, front) + [Entry(at, last)];
    }
  }

  lemma SortedHigher(s: Tracker, hi: nat, at: nat)
    requires SortedByEnd(s, hi) && hi <= at
    ensures SortedByEnd(s, at)
  {
  }

  // ---------------------------------------------------------------- expiry

  /** The queue's head is scanned up to the first survivor, yet everything due is found. */
  lemma ScanFindsAll(s: Tracker, queue: seq<nat>, from: nat, at: nat, hi: nat)
    requires SortedByEnd(s, hi) && from + |queue| <= |s.store|
    requires forall i :: 0 <= i < |queue| ==> queue[i] == from + i
    ensures var n := DueChallenges(s, queue, at);
      && (forall i :: from <= i < from + |queue| ==> (i < from + n <==> s.store[i].resolveEnd <= at))
      && (forall i: nat :: i in queue[..n] <==> from <= i < from + n)
  {
    var n := DueChallenges(s, queue, at);
    forall i | from <= i < from + |queue|
      ensures i < from + n <==> s.store[i].resolveEnd <= at
    {
      assert queue[i - from] == i;
    }
    forall i: nat
      ensures i in queue[..n] <==> from <= i < from + n
    {
      if from <= i < from + n {
        assert queue[..n][i - from] == i;
      }
    }
  }

  lemma ExpireQueues(s: Tracker, at: nat)
    requires s.WellFormed() && QueuesInOrder(s)
    ensures var s' := ExpireChallenges(s, at);
      && s'.expiredChallenges + s'.challenges == s.expiredChallenges + s.challenges
      && Closed(s') == Closed(s) + DueChallenges(s, s.challenges, at) && QueuesInOrder(s')
  {
    hide DueChallenges, MarkExpired;
    var n := DueChallenges(s, s.challenges, at);
    assert s.challenges == s.challenges[..n] + s.challenges[n..];
  }

  lemma ExpireEffect(s: Tracker, at: nat, hi: nat)
    requires s.WellFormed() && QueuesInOrder(s) && SortedByEnd(s, hi)
    ensures var s' := ExpireChallenges(s, at);
      && s' == s.(store := s'.store, challenges := s'.challenges, expiredChallenges := s'.expiredChallenges)
      && s'.expiredChallenges + s'.challenges == s.expiredChallenges + s.challenges
      && |s'.store| == |s.store| && Closed(s) <= Closed(s') && QueuesInOrder(s')
      && (forall i :: 0 <= Closed(s) <= i < |s.store| ==> (i < Closed(s') <==> s.store[i].resolveEnd <= at))
      && (forall i :: 0 <= i < |s.store| ==>
            s'.store[i] == (if 0 <= Closed(s) <= i < Closed(s') then ExpireOne(s.store[i]) else s.store[i]))
  {
    ExpireQueues(s, at);
    ScanFindsAll(s, s.challenges, Closed(s), at, hi);
    hide SortedByEnd, QueuesInOrder, DueChallenges, ExpireOne;
  }

  lemma ExpireStep(s: Tracker, hash: HashFn, log: seq<Entry>, b: nat, pruned: int, hi: nat, at: nat)
    requires TrackerInv(s, hash, log, b, pruned, hi) && b <= at
    ensures TrackerInv(ExpireChallenges(s, at), hash, log, at, pruned, hi)
  {
    hide UniqueCreates, ResolvedAfter, Positions, ExpireChallenges;
    ExpireEffect(s, at, hi);
    var s' := ExpireChallenges(s, at);
    assert forall i :: 0 <= i < |s.store| ==>
      s'.store[i].Key() == s.store[i].Key() && s'.store[i].resolveEnd == s.store[i].resolveEnd
      && (s'.store[i].status == Resolved <==> s.store[i].status == Resolved);
    forall i: nat | i < |s'.store|
      ensures Mirrors(s', hash, log, i)
    {
      assert Mirrors(s, hash, log, i);
    }
  }

  // ---------------------------------------------------------------- pruning

  ghost function PrunedTo(b: nat, pruned: int, origin: nat): int {
    var bound := if origin < b then origin else b;
    if pruned < bound then bound else pruned
  }

  lemma PruneQueues(s: Tracker, origin: nat)
    requires s.WellFormed() && QueuesInOrder(s)
    ensures var s' := PruneTracker(s, origin);
      && s'.store == s.store && s'.challenges == s.challenges && s'.resolveWindow == s.resolveWindow
      && Pruned(s') == Pruned(s) + DueChallenges(s, s.expiredChallenges, origin) && QueuesInOrder(s')
      && s'.index == s.index - (set i | 0 <= i < DueChallenges(s, s.expiredChallenges, origin) :: s.store[s.expiredChallenges[i]].Key())
  {
    hide DueCommitments, DueChallenges;
    SameStoreDue(s, PruneCommitments(s, origin), s.expiredChallenges, origin);
  }

  lemma {:induction false} SameStoreDue(s: Tracker, s': Tracker, queue: seq<nat>, origin: nat)
    requires s'.store == s.store && forall i :: 0 <= i < |queue| ==> queue[i] < |s.store|
    ensures DueChallenges(s', queue, origin) == DueChallenges(s, queue, origin)
  {
    if queue != [] {
      SameStoreDue(s, s', queue[1..], origin);
    }
  }

  lemma PruneEffect(s: Tracker, origin: nat, hi: nat)
    requires s.WellFormed() && QueuesInOrder(s) && SortedByEnd(s, hi)
    ensures var s' := PruneTracker(s, origin);
      && s'.store == s.store && s'.challenges == s.challenges && s'.resolveWindow == s.resolveWindow
      && 0 <= Pruned(s) <= Pruned(s') <= Closed(s) && QueuesInOrder(s')
      && (forall i :: 0 <= Pruned(s) <= i < Closed(s) ==> (i < Pruned(s') <==> s.store[i].resolveEnd <= origin))
      && s'.index == s.index - (set i | 0 <= Pruned(s) <= i < Pruned(s') :: s.store[i].Key())
  {
    hide SortedByEnd, PruneTracker, DueChallenges;
    var n := DueChallenges(s, s.expiredChallenges, origin);
    PruneQueues(s, origin);
    ScanFindsAll(s, s.expiredChallenges, Pruned(s), origin, hi);
    GoneKeys(s, n);
  }

  lemma GoneKeys(s: Tracker, n: nat)
    requires s.WellFormed() && QueuesInOrder(s) && n <= |s.expiredChallenges|
    ensures (set i | 0 <= i < n :: s.store[s.expiredChallenges[i]].Key())
         == (set i | 0 <= Pruned(s) <= i < Pruned(s) + n :: s.store[i].Key())
  {
    forall j | Pruned(s) <= j < Pruned(s) + n
      ensures s.store[j].Key() in set i | 0 <= i < n :: s.store[s.expiredChallenges[i]].Key()
    {
      assert s.expiredChallenges[j - Pruned(s)] == j;
    }
  }

  lemma PruneCuts(s: Tracker, b: nat, pruned: int, hi: nat, origin: nat)
    requires s.WellFormed() && QueuesInOrder(s) && SortedByEnd(s, hi) && CutAt(s, b, pruned)
    ensures var s' := PruneTracker(s, origin); SortedByEnd(s', hi) && CutAt(s', b, PrunedTo(b, pruned, origin))
  {
    hide PruneTracker;
    PruneEffect(s, origin, hi);
  }

  lemma PruneIndex(s: Tracker, hi: nat, origin: nat)
    requires s.WellFormed() && QueuesInOrder(s) && SortedByEnd(s, hi) && IndexExact(s)
    ensures PruneTracker(s, origin).WellFormed() && IndexExact(PruneTracker(s, origin))
  {
    hide PruneTracker, SortedByEnd;
    PruneEffect(s, origin, hi);
  }

  lemma PruneStep(s: Tracker, hash: HashFn, log: seq<Entry>, b: nat, pruned: int, hi: nat, origin: nat)
    requires TrackerInv(s, hash, log, b, pruned, hi)
    ensures TrackerInv(PruneTracker(s, origin), hash, log, b, PrunedTo(b, pruned, origin), hi)
  {
    hide UniqueCreates, ResolvedAfter, Positions, PruneTracker, QueuesInOrder, SortedByEnd, CutAt, IndexExact;
    PruneEffect(s, origin, hi);
    PruneCuts(s, b, pruned, hi, origin);
    PruneIndex(s, hi, origin);
    var s' := PruneTracker(s, origin);
    forall i: nat | i < |s'.store|
      ensures Mirrors(s', hash, log, i)
    {
      assert Mirrors(s, hash, log, i);
    }
  }
}
