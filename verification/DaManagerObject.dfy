/**
 The alt-DA manager as an object driving the challenge tracker. What it fetches
 from L1 and from the DA storage is passed in.
 */
module DaManagerObject {
  import opened BatcherTypes
  import opened Commitments
  import opened DaState
  import opened DaLog
  import opened DaObjects
  import Spec = DaManager
  import opened DaManager

  class DA {
    const keccakMode: bool
    const hash: HashFn
    const state: State
    var challengeOrigin: nat
    var commitmentOrigin: nat
    var finalizedHead: BlockRef
    var l1FinalizedHead: BlockRef
    var resetting: bool

    ghost function View(): Da
      reads this, state
    {
      Da(keccakMode, state.value, challengeOrigin, commitmentOrigin, finalizedHead, l1FinalizedHead, resetting)
    }

    ghost predicate Valid()
      reads this, state, state.records
    {
      state.Valid()
    }

    constructor (keccakMode: bool, hash: HashFn, challengeWindow: nat, resolveWindow: nat)
      ensures Valid() && View() == NewDa(keccakMode, challengeWindow, resolveWindow) && this.hash == hash && fresh(state)
    {
      this.keccakMode, this.hash := keccakMode, hash;
      state := new State(challengeWindow, resolveWindow);
      challengeOrigin, commitmentOrigin, resetting := 0, 0, false;
      finalizedHead, l1FinalizedHead := BlockRef(0, 0), BlockRef(0, 0);
    }

    method ApplyEvent(at: nat, e: Event)
      requires state.Valid()
      modifies state, state.records
      ensures state.Valid() && fresh(set r | r in state.records && r !in old(state.records))
      ensures state.value == DaLog.ApplyEvent(old(state.value), hash, at, e)
    {
      match e
      case Challenged(comm, block) =>
        state.CreateChallenge(comm, at, block);
      case ResolvedBy(comm, block, input) =>
        if input.Some? && comm.Verify(hash, input.value) {
          var _ := state.ResolveChallenge(comm, block, input.value);
        }
      case Unknown =>
    }

    /** The block's events in order; undecodable ones are skipped. */
    method LoadChallengeEvents(at: nat, es: seq<Event>)
      requires state.Valid()
      modifies state, state.records
      ensures state.Valid() && fresh(set r | r in state.records && r !in old(state.records))
      ensures state.value == LoadEvents(old(state.value), hash, at, es)
    {
      hide DaLog.ApplyEvent;
      for i := 0 to |es|
        invariant state.Valid() && fresh(set r | r in state.records && r !in old(state.records))
        invariant state.value == LoadEvents(old(state.value), hash, at, es[..i])
      {
        assert es[..i + 1][..i] == es[..i];
        ApplyEvent(at, es[i]);
      }
      assert es[..|es|] == es;
    }

    method AdvanceChallengeOrigin(at: nat, fetched: Fetched) returns (r: Advance)
      requires Valid()
      modifies this, state, state.records
      ensures Valid() && fresh(set r | r in state.records && r !in old(state.records))
      ensures (View(), r) == Spec.AdvanceChallengeOrigin(old(View()), hash, at, fetched)
    {
      hide LoadEvents, DaState.ExpireChallenges;
      if at <= challengeOrigin {
        return Advanced;
      }
      var events := if keccakMode then fetched else Some([]);
      if events.None? {
        return FetchFailed;
      }
      LoadChallengeEvents(at, events.value);
      state.ExpireChallenges(at);
      challengeOrigin := at;
      return Advanced;
    }

    method AdvanceCommitmentOrigin(at: nat) returns (r: Advance)
      requires Valid()
      modifies this, state
      ensures Valid() && state.records == old(state.records)
      ensures (View(), r) == Spec.AdvanceCommitmentOrigin(old(View()), at)
    {
      hide DaState.ExpireCommitments;
      if at <= commitmentOrigin {
        return Advanced;
      }
      var reorg := state.ExpireCommitments(at);
      if reorg {
        resetting := true;
        return ReorgRequired;
      }
      commitmentOrigin := at;
      return Advanced;
    }

    method AdvanceL1Origin(at: nat, fetched: Fetched, aged: Option<BlockRef>) returns (r: Advance)
      requires Valid()
      modifies this, state, state.records
      ensures Valid() && fresh(set r | r in state.records && r !in old(state.records))
      ensures (View(), r) == Spec.AdvanceL1Origin(old(View()), hash, at, fetched, aged)
    {
      hide Spec.AdvanceChallengeOrigin, Spec.AdvanceCommitmentOrigin;
      r := AdvanceChallengeOrigin(at, fetched);
      if r != Advanced {
        return;
      }
      r := AdvanceCommitmentOrigin(at);
      if r != Advanced {
        return;
      }
      state.Counts();
      if state.challenges == [] && state.expiredChallenges == [] && state.commitments == [] && state.expiredCommitments == [] {
        if l1FinalizedHead.number < state.challengeWindow {
          return;
        }
        if aged.None? {
          return FetchFailed;
        }
        finalizedHead := aged.value;
      }
    }

    method Reset(base: nat)
      requires Valid()
      modifies this, state
      ensures Valid() && View() == Spec.Reset(old(View()), base)
      ensures forall r :: r in state.records ==> r in old(state.records)
    {
      if resetting {
        resetting := false;
        commitmentOrigin := base;
        state.ClearCommitments();
      } else {
        challengeOrigin, commitmentOrigin := base, base;
        state.Reset();
      }
    }

    method Finalize(l1Finalized: BlockRef)
      requires Valid()
      modifies this, state
      ensures Valid() && View() == Spec.Finalize(old(View()), l1Finalized) && state.records == old(state.records)
    {
      hide PruneTracker;
      l1FinalizedHead := l1Finalized;
      state.Prune(l1Finalized.number);
      state.Counts();
      finalizedHead := state.lastPruned;
    }

    method LookAhead(next: NextBlock) returns (r: Read)
      requires Valid()
      modifies this, state, state.records
      ensures Valid() && fresh(set r | r in state.records && r !in old(state.records))
      ensures (View(), r) == Spec.LookAhead(old(View()), hash, next)
    {
      hide Spec.AdvanceChallengeOrigin;
      if next.None? {
        return RetryLater;
      }
      var a := AdvanceChallengeOrigin(challengeOrigin + 1, next.value);
      r := if a == Advanced then PendingChallenge else RetryLater;
    }

    method GetInput(comm: Comm, inclusion: BlockRef, stored: Stored, next: NextBlock) returns (r: Read)
      requires Valid()
      modifies this, state, state.records
      ensures Valid() && fresh(set r | r in state.records && r !in old(state.records))
      ensures (View(), r) == Spec.GetInput(old(View()), hash, comm, inclusion, stored, next)
    {
      hide Spec.LookAhead, State.Linked, State.Stored;
      state.Counts();
      if keccakMode != comm.Keccak? {
        return ExpiredChallenge;
      }
      var status := state.GetChallengeStatus(comm, inclusion.number);
      if status == Expired {
        return ExpiredChallenge;
      }
      state.TrackCommitment(comm, inclusion);
      match stored
      case Found(data) =>
        return Input(data);
      case StorageError =>
        return RetryLater;
      case NotFound =>
        match status {
          case Uninitialized =>
            if challengeOrigin > inclusion.number + state.challengeWindow {
              return MissingPastWindow;
            }
            r := LookAhead(next);
          case Active =>
            r := LookAhead(next);
          case Resolved =>
            if comm.Generic? {
              return MissingPastWindow;
            }
            state.RecordOf((comm, inclusion.number));
            r := Input(state.challengesMap[(comm, inclusion.number)].input);
          case Expired =>
            assert false;
        }
    }
  }
}
