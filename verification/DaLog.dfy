/**
 The challenge tracker against its L1 event log: the status of every challenge
 is a simple function of the log, the last processed block and the last pruning.
 */
module DaLog {
  import opened BatcherTypes
  import opened Commitments
  import opened DaState

  /** A decoded contract event. The input of a resolution is absent when its transaction cannot be fetched or decoded. */
  datatype Event =
    | Challenged(comm: Comm, block: nat)
    | ResolvedBy(comm: Comm, block: nat, input: Option<Bytes>)
    | Unknown

  function ApplyEvent(s: Tracker, hash: HashFn, at: nat, e: Event): Tracker
    requires s.WellFormed()
  {
    match e
    case Challenged(comm, block) => CreateChallenge(s, comm, at, block)
    case ResolvedBy(comm, block, input) =>
      if input.Some? && comm.Verify(hash, input.value) then ResolveChallenge(s, comm, block, input.value) else s
    case Unknown => s
  }

  function LoadEvents(s: Tracker, hash: HashFn, at: nat, es: seq<Event>): (r: Tracker)
    requires s.WellFormed()
    ensures r.WellFormed()
    decreases |es|
  {
    if es == [] then s else ApplyEvent(LoadEvents(s, hash, at, es[..|es| - 1]), hash, at, es[|es| - 1])
  }

  // ---------------------------------------------------------------- the log and its reading

  datatype Entry = Entry(at: nat, event: Event)

  ghost predicate Creates(e: Entry, k: Key) {
    e.event.Challenged? && (e.event.comm, e.event.block) == k
  }

  ghost predicate Resolves(hash: HashFn, e: Entry, k: Key) {
    && e.event.ResolvedBy? && (e.event.comm, e.event.block) == k
    && e.event.input.Some? && e.event.comm.Verify(hash, e.event.input.value)
  }

  ghost predicate ResolvedAfter(hash: HashFn, log: seq<Entry>, k: Key, n: nat) {
    exists m :: n < m < |log| && Resolves(hash, log[m], k)
  }

  ghost predicate Challengeless(log: seq<Entry>, k: Key) {
    forall n :: 0 <= n < |log| ==> !Creates(log[n], k)
  }

  /** The contract accepts at most one challenge per commitment and block. */
  ghost predicate UniqueCreates(log: seq<Entry>) {
    forall n, m, k :: 0 <= n < |log| && 0 <= m < |log| && Creates(log[n], k) && Creates(log[m], k) ==> n == m
  }

  /**
   The status of `k` once all blocks up to `b` are processed and challenges ending at or before `pruned` are gone,
   read off the log.
   */
  ghost function LogStatus(hash: HashFn, log: seq<Entry>, k: Key, resolveWindow: nat, b: nat, pruned: int): Status {
    if Challengeless(log, k) then Uninitialized
    else
      var n :| 0 <= n < |log| && Creates(log[n], k);
      if log[n].at + resolveWindow <= pruned then Uninitialized
      else if ResolvedAfter(hash, log, k, n) then Resolved
      else if log[n].at + resolveWindow <= b then Expired
      else Active
  }

  // ---------------------------------------------------------------- the invariant

  /** The number of challenges pruned so far, and of those no longer open. */
  ghost function Pruned(s: Tracker): int {
    |s.store| - |s.expiredChallenges| - |s.challenges|
  }

  ghost function Closed(s: Tracker): int {
    |s.store| - |s.challenges|
  }

  /** The two queues are, in order, the challenges not pruned: first the closed, then the open ones. */
  ghost predicate QueuesInOrder(s: Tracker) {
    && 0 <= Pruned(s)
    && (forall i :: 0 <= i < |s.expiredChallenges| ==> s.expiredChallenges[i] == Pruned(s) + i)
    && (forall i :: 0 <= i < |s.challenges| ==> s.challenges[i] == Closed(s) + i)
  }

  /** Challenges are created in the order of their resolve windows' ends, the last at `hi`. */
  ghost predicate SortedByEnd(s: Tracker, hi: nat) {
    && (forall i, j :: 0 <= i <= j < |s.store| ==> s.store[i].resolveEnd <= s.store[j].resolveEnd)
    && (forall i :: 0 <= i < |s.store| ==> s.store[i].resolveEnd <= hi + s.resolveWindow)
  }

  ghost predicate CutAt(s: Tracker, b: nat, pruned: int) {
    && pruned <= b
    && (forall i :: 0 <= i < Pruned(s) ==> s.store[i].resolveEnd <= pruned)
    && (forall i :: 0 <= Pruned(s) <= i < Closed(s) ==>
          pruned < s.store[i].resolveEnd <= b && (s.store[i].status == Resolved || s.store[i].status == Expired))
    && (forall i :: 0 <= Closed(s) <= i < |s.store| ==>
          b < s.store[i].resolveEnd && (s.store[i].status == Resolved || s.store[i].status == Active))
  }

  ghost predicate IndexExact(s: Tracker) {
    && (forall i :: 0 <= Pruned(s) <= i < |s.store| ==> s.store[i].Key() in s.index && s.index[s.store[i].Key()] == i)
    && (forall k :: k in s.index ==> Pruned(s) <= s.index[k] < |s.store| && s.store[s.index[k]].Key() == k)
  }

  /** The positions of the challenge events in the log. */
  ghost function Positions(log: seq<Entry>): seq<nat> {
    if log == [] then []
    else if log[|log| - 1].event.Challenged? then Positions(log[..|log| - 1]) + [|log| - 1]
    else Positions(log[..|log| - 1])
  }

  /** Challenge object `i` stands for the `i`-th challenge event. */
  ghost predicate Mirrors(s: Tracker, hash: HashFn, log: seq<Entry>, i: nat)
    requires i < |s.store| == |Positions(log)|
  {
    var n := Positions(log)[i];
    && n < |log|
    && Creates(log[n], s.store[i].Key())
    && s.store[i].resolveEnd == log[n].at + s.resolveWindow
    && (Pruned(s) <= i ==> (s.store[i].status == Resolved <==> ResolvedAfter(hash, log, s.store[i].Key(), n)))
  }

  ghost predicate TrackerInv(s: Tracker, hash: HashFn, log: seq<Entry>, b: nat, pruned: int, hi: nat) {
    && s.WellFormed()
    && QueuesInOrder(s)
    && SortedByEnd(s, hi)
    && CutAt(s, b, pruned)
    && IndexExact(s)
    && UniqueCreates(log)
    && |s.store| == |Positions(log)|
    && (forall i: nat :: i < |s.store| ==> Mirrors(s, hash, log, i))
  }

  lemma {:induction false} PositionsComplete(log: seq<Entry>, n: nat) returns (i: nat)
    requires n < |log| && log[n].event.Challenged?
    ensures i < |Positions(log)| && Positions(log)[i] == n
  {
    if n == |log| - 1 {
      i := |Positions(log)| - 1;
    } else {
      i := PositionsComplete(log[..|log| - 1], n);
    }
  }

  /** The tracked status of every challenge is the one the log gives it. */
  lemma StatusMatchesLog(s: Tracker, hash: HashFn, log: seq<Entry>, b: nat, pruned: int, hi: nat, k: Key)
    requires TrackerInv(s, hash, log, b, pruned, hi)
    ensures s.StatusOf(k) == LogStatus(hash, log, k, s.resolveWindow, b, pruned)
  {
    hide UniqueCreates, ResolvedAfter, SortedByEnd;
    if k in s.index {
      var i := s.index[k];
      assert Mirrors(s, hash, log, i);
      TheCreate(log, k, Positions(log)[i]);
    } else if !Challengeless(log, k) {
      var n :| 0 <= n < |log| && Creates(log[n], k);
      TheCreate(log, k, n);
      var i := PositionsComplete(log, n);
      assert Mirrors(s, hash, log, i);
      assert s.store[i].Key() == k;
    }
  }

  /** With unique challenges, any choice of the challenge event is the same one. */
  lemma TheCreate(log: seq<Entry>, k: Key, n: nat)
    requires UniqueCreates(log) && n < |log| && Creates(log[n], k)
    ensures forall m :: 0 <= m < |log| && Creates(log[m], k) ==> m == n
    ensures !Challengeless(log, k)
  {
  }
}
