/**
 The challenge tracker's state as a value. A challenge is one mutable object
 shared by a queue and the lookup map; here it is a position in `store`, which
 lists every challenge object ever created since the last L1 reorg.
 */
module DaState {
  import opened BatcherTypes
  import opened Commitments

  datatype BlockRef = BlockRef(hash: Hash, number: nat)

  datatype Status = Uninitialized | Active | Resolved | Expired

  datatype Challenge = Challenge(comm: Comm, block: nat, resolveEnd: nat, input: Bytes, status: Status)
  {
    function Key(): Key {
      (comm, block)
    }
  }

  datatype Commitment = Commitment(comm: Comm, inclusion: BlockRef, windowEnd: nat)
  {
    function Key(): Key {
      (comm, inclusion.number)
    }
  }

  /** A challenge is looked up by its commitment and the block that includes it. */
  type Key = (Comm, nat)

  datatype Tracker = Tracker(
    challengeWindow: nat,
    resolveWindow: nat,
    commitments: seq<Commitment>,
    expiredCommitments: seq<Commitment>,
    challenges: seq<nat>,
    expiredChallenges: seq<nat>,
    index: map<Key, nat>,
    store: seq<Challenge>,
    lastPruned: BlockRef)
  {
    predicate WellFormed() {
      && (forall i :: 0 <= i < |challenges| ==> challenges[i] < |store|)
      && (forall i :: 0 <= i < |expiredChallenges| ==> expiredChallenges[i] < |store|)
      && (forall k :: k in index ==> index[k] < |store|)
    }

    function StatusOf(k: Key): Status
      requires WellFormed()
    {
      if k in index then store[index[k]].status else Uninitialized
    }

    /** The block at which a commitment stops being open to a challenge or its resolution. */
    function ExpiresAt(c: Commitment): nat
      requires WellFormed()
    {
      if c.Key() in index then store[index[c.Key()]].resolveEnd else c.windowEnd
    }

    /** Its challenge was not resolved. */
    predicate Unresolved(c: Commitment)
      requires WellFormed()
    {
      c.Key() in index && store[index[c.Key()]].status != Resolved
    }

    predicate NoCommitments() {
      challenges == [] && expiredChallenges == [] && commitments == [] && expiredCommitments == []
    }
  }

  function NewTracker(challengeWindow: nat, resolveWindow: nat): Tracker {
    Tracker(challengeWindow, resolveWindow, [], [], [], [], map[], [], BlockRef(0, 0))
  }

  function ClearCommitments(s: Tracker): Tracker {
    s.(commitments := [], expiredCommitments := [])
  }

  function ResetTracker(s: Tracker): Tracker {
    ClearCommitments(s).(challenges := [], expiredChallenges := [], index := map[], store := [])
  }

  function CreateChallenge(s: Tracker, comm: Comm, at: nat, block: nat): Tracker {
    s.(store := s.store + [Challenge(comm, block, at + s.resolveWindow, [], Active)],
       challenges := s.challenges + [|s.store|],
       index := s.index[(comm, block) := |s.store|])
  }

  /** Resolving a challenge that is not tracked is an error and changes nothing. */
  function ResolveChallenge(s: Tracker, comm: Comm, block: nat, input: Bytes): Tracker
    requires s.WellFormed()
  {
    if (comm, block) !in s.index then s
    else
      var i := s.index[(comm, block)];
      s.(store := s.store[i := s.store[i].(input := input, status := Resolved)])
  }

  function TrackCommitment(s: Tracker, comm: Comm, inclusion: BlockRef): Tracker {
    s.(commitments := s.commitments + [Commitment(comm, inclusion, inclusion.number + s.challengeWindow)])
  }

  // ---------------------------------------------------------------- expiry and pruning

  /** How many challenges at the head of the queue end at or before `origin`. */
  function DueChallenges(s: Tracker, queue: seq<nat>, origin: nat): (n: nat)
    requires forall i :: 0 <= i < |queue| ==> queue[i] < |s.store|
    ensures n <= |queue|
    ensures forall i :: 0 <= i < n ==> s.store[queue[i]].resolveEnd <= origin
    ensures n < |queue| ==> origin < s.store[queue[n]].resolveEnd
  {
    if queue == [] || origin < s.store[queue[0]].resolveEnd then 0 else 1 + DueChallenges(s, queue[1..], origin)
  }

  /** How many commitments at the head of the queue expire at or before `origin`. */
  function DueCommitments(s: Tracker, queue: seq<Commitment>, origin: nat): (n: nat)
    requires s.WellFormed()
    ensures n <= |queue|
    ensures forall i :: 0 <= i < n ==> s.ExpiresAt(queue[i]) <= origin
    ensures n < |queue| ==> origin < s.ExpiresAt(queue[n])
  {
    if queue == [] || origin < s.ExpiresAt(queue[0]) then 0 else 1 + DueCommitments(s, queue[1..], origin)
  }

  function ExpireOne(c: Challenge): Challenge {
    if c.status == Active then c.(status := Expired) else c
  }

  /** Marks the listed challenges expired, unless they were resolved. */
  function MarkExpired(store: seq<Challenge>, ids: seq<nat>): (r: seq<Challenge>)
    ensures |r| == |store|
  {
    seq(|store|, i requires 0 <= i < |store| => if i in ids then ExpireOne(store[i]) else store[i])
  }

  function ExpireChallenges(s: Tracker, origin: nat): Tracker
    requires s.WellFormed()
  {
    var n := DueChallenges(s, s.challenges, origin);
    s.(expiredChallenges := s.expiredChallenges + s.challenges[..n],
       challenges := s.challenges[n..],
       store := MarkExpired(s.store, s.challenges[..n]))
  }

  /** The flag asks for a reorg: some commitment expired with its challenge unresolved. */
  function ExpireCommitments(s: Tracker, origin: nat): (Tracker, bool)
    requires s.WellFormed()
  {
    var n := DueCommitments(s, s.commitments, origin);
    (s.(expiredCommitments := s.expiredCommitments + s.commitments[..n], commitments := s.commitments[n..]),
     exists i :: 0 <= i < n && s.Unresolved(s.commitments[i]))
  }

  function PruneCommitments(s: Tracker, origin: nat): Tracker
    requires s.WellFormed()
  {
    var n := DueCommitments(s, s.expiredCommitments, origin);
    s.(expiredCommitments := s.expiredCommitments[n..],
       lastPruned := if n == 0 then s.lastPruned else s.expiredCommitments[n - 1].inclusion)
  }

  function PruneChallenges(s: Tracker, origin: nat): Tracker
    requires s.WellFormed()
  {
    var n := DueChallenges(s, s.expiredChallenges, origin);
    s.(expiredChallenges := s.expiredChallenges[n..],
       index := s.index - (set i | 0 <= i < n :: s.store[s.expiredChallenges[i]].Key()))
  }

  function PruneTracker(s: Tracker, origin: nat): Tracker
    requires s.WellFormed()
  {
    PruneChallenges(PruneCommitments(s, origin), origin)
  }
}
