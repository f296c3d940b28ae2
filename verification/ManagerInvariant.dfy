/**
 What every operation of the channel manager keeps: block conservation, the
 agreement of the transaction index with the channels, and frame coverage.
 */
module ManagerInvariant {
  import opened BatcherTypes
  import opened Channels
  import opened ManagerState
  import opened Chains

  /** All blocks of the given channels, oldest channel first. */
  ghost function Held<C>(chans: map<C, Chan>, queue: seq<C>): seq<Block>
    requires forall c :: c in queue ==> c in chans
  {
    if queue == [] then [] else chans[queue[0]].builder.blocks + Held(chans, queue[1..])
  }

  lemma {:induction false} HeldConcat<C>(chans: map<C, Chan>, q: seq<C>, r: seq<C>)
    requires forall c :: c in q + r ==> c in chans
    ensures (forall c :: c in q ==> c in chans) && (forall c :: c in r ==> c in chans)
    ensures Held(chans, q + r) == Held(chans, q) + Held(chans, r)
  {
    assert forall c :: c in q || c in r ==> c in q + r;
    if q == [] {
      assert q + r == r;
    } else {
      assert (q + r)[1..] == q[1..] + r;
      HeldConcat(chans, q[1..], r);
    }
  }

  lemma {:induction false} HeldSame<C>(chans: map<C, Chan>, chans': map<C, Chan>, q: seq<C>)
    requires forall c :: c in q ==> c in chans && c in chans' && chans[c].builder.blocks == chans'[c].builder.blocks
    ensures Held(chans, q) == Held(chans', q)
  {
    if q != [] {
      HeldSame(chans, chans', q[1..]);
    }
  }

  // ---------------------------------------------------------------- the invariant

  ghost predicate Distinct<C>(q: seq<C>) {
    forall i, j :: 0 <= i < j < |q| ==> q[i] != q[j]
  }

  /** Channels are created with distinct ids and the newest one is the one being filled. */
  ghost predicate Shape<C>(s: Mgr<C>) {
    && s.WellFormed()
    && s.cfg.Check()
    && Distinct(s.queue)
    && (s.current.Some? ==> s.queue != [] && s.queue[|s.queue| - 1] == s.current.value)
    && (forall c :: c in s.chans ==> ChanInv(s.chans[c]))
    && (forall c, d :: c in s.chans && d in s.chans && s.chans[c].builder.id == s.chans[d].builder.id ==> c == d)
  }

  lemma ShapeWellFormed<C>(s: Mgr<C>)
    requires Shape(s)
    ensures s.WellFormed()
  {
  }

  /** The queued channels hold exactly the chain segment that ends before the cursor. */
  ghost predicate Conserved<C>(s: Mgr<C>)
    requires s.WellFormed()
  {
    Chained(Held(s.chans, s.queue), s.blocks, s.cursor)
  }

  lemma ConservedConsecutive<C>(s: Mgr<C>)
    requires s.WellFormed() && Conserved(s)
    ensures Consecutive(s.blocks)
  {
    ChainedNumbers(Held(s.chans, s.queue), s.blocks, s.cursor);
  }

  /** No queued channel consists of pruned blocks only. */
  ghost predicate Retained<C>(s: Mgr<C>)
    requires s.WellFormed()
  {
    forall c :: c in s.queue && s.chans[c].builder.blocks != [] ==>
      s.blocks != [] && s.blocks[0].number <= Last(s.chans[c].builder.blocks).number
  }

  ghost function Last(bs: seq<Block>): Block
    requires bs != []
  {
    bs[|bs| - 1]
  }

  /** The index and the queued channels agree on what is pending. */
  ghost predicate Indexed<C>(s: Mgr<C>)
    requires s.WellFormed()
  {
    && (forall t :: t in s.txs ==> t in s.chans[s.txs[t]].pending)
    && (forall c, t :: c in s.queue && t in s.chans[c].pending ==> t in s.txs && s.txs[t] == c)
  }

  /** The first block number that is not pruned. */
  ghost function Frontier<C>(s: Mgr<C>): nat {
    if s.blocks != [] then s.blocks[0].number else s.tipNumber + 1
  }

  /** A channel that is indexed but no longer queued holds pruned blocks only. */
  ghost predicate StaleBelow<C>(s: Mgr<C>)
    requires s.WellFormed()
  {
    forall t, b :: t in s.txs && s.txs[t] !in s.queue && b in s.chans[s.txs[t]].builder.blocks ==> b.number < Frontier(s)
  }

  ghost predicate TipOk<C>(s: Mgr<C>) {
    && (s.tip == 0 ==> s.blocks == [] && s.queue == [] && s.txs == map[])
    && (s.blocks != [] ==> s.tip == Last(s.blocks).hash && s.tipNumber == Last(s.blocks).number)
  }

  ghost predicate MgrInv<C>(s: Mgr<C>) {
    Shape(s) && Conserved(s) && Retained(s) && Indexed(s) && StaleBelow(s) && TipOk(s)
  }

  /** Bytes counted as pending beyond the blocks that really are. */
  ghost function Excess<C>(s: Mgr<C>): int
    requires s.WellFormed()
  {
    s.pendingDaBytes - DaSum(s.blocks[s.cursor..])
  }

  // ---------------------------------------------------------------- what the invariant means

  /** Channel `k` of the queue holds the block at its position `j`. */
  ghost predicate Holds<C>(s: Mgr<C>, k: nat, j: nat, b: Block)
    requires s.WellFormed()
  {
    k < |s.queue| && j < |s.chans[s.queue[k]].builder.blocks| && s.chans[s.queue[k]].builder.blocks[j] == b
  }

  ghost predicate HeldSomewhere<C>(s: Mgr<C>, b: Block)
    requires s.WellFormed()
  {
    exists k: nat, j: nat :: Holds(s, k, j, b)
  }

  /** Where position `j` of the `k`-th channel lands in the concatenation. */
  ghost function Offset<C>(s: Mgr<C>, k: nat): nat
    requires s.WellFormed() && k <= |s.queue|
  {
    |Held(s.chans, s.queue[..k])|
  }

  lemma HeldAt<C>(s: Mgr<C>, k: nat)
    requires s.WellFormed() && k < |s.queue|
    ensures var own := s.chans[s.queue[k]].builder.blocks;
      && Held(s.chans, s.queue) == Held(s.chans, s.queue[..k]) + own + Held(s.chans, s.queue[k + 1..])
      && Held(s.chans, s.queue[..k + 1]) == Held(s.chans, s.queue[..k]) + own
  {
    var q := s.queue;
    assert q == q[..k] + [q[k]] + q[k + 1..];
    assert q[..k + 1] == q[..k] + [q[k]];
    HeldConcat(s.chans, q[..k], [q[k]]);
    HeldConcat(s.chans, q[..k] + [q[k]], q[k + 1..]);
    assert Held(s.chans, [q[k]]) == s.chans[q[k]].builder.blocks + Held(s.chans, []);
  }

  lemma {:induction false} OffsetMonotone<C>(s: Mgr<C>, k: nat, k': nat)
    requires s.WellFormed() && k <= k' <= |s.queue|
    ensures Offset(s, k) <= Offset(s, k')
    decreases k' - k
  {
    if k < k' {
      HeldAt(s, k' - 1);
      OffsetMonotone(s, k, k' - 1);
    }
  }

  /** A held block sits in the concatenation at its channel's offset. */
  lemma HoldsAt<C>(s: Mgr<C>, k: nat, j: nat, b: Block)
    requires s.WellFormed() && Holds(s, k, j, b)
    ensures Offset(s, k) + j < Offset(s, k + 1) <= |Held(s.chans, s.queue)|
    ensures Held(s.chans, s.queue)[Offset(s, k) + j] == b
  {
    HeldAt(s, k);
  }

  /** Every position of the concatenation belongs to some channel. */
  lemma {:induction false} OwnerOf<C>(s: Mgr<C>, k: nat, pos: nat) returns (owner: nat, j: nat)
    requires s.WellFormed() && k <= |s.queue| && pos < Offset(s, k)
    ensures Holds(s, owner, j, Held(s.chans, s.queue[..k])[pos]) && owner < k
  {
    HeldAt(s, k - 1);
    if pos < Offset(s, k - 1) {
      owner, j := OwnerOf(s, k - 1, pos);
    } else {
      owner, j := k - 1, pos - Offset(s, k - 1);
    }
  }

  /**
   A queued block below the cursor is in exactly one queued channel, at one position;
   a block at or above the cursor is in none.
   */
  lemma BlockOwnedOnce<C>(s: Mgr<C>, i: nat)
    requires s.WellFormed() && Conserved(s) && i < |s.blocks|
    ensures i < s.cursor <==> HeldSomewhere(s, s.blocks[i])
    ensures forall k: nat, j: nat, k': nat, j': nat :: Holds(s, k, j, s.blocks[i]) && Holds(s, k', j', s.blocks[i]) ==> k == k' && j == j'
  {
    var held := Held(s.chans, s.queue);
    ChainedNumbers(held, s.blocks, s.cursor);
    forall k: nat, j: nat | Holds(s, k, j, s.blocks[i])
      ensures Offset(s, k) + j == |held| - s.cursor + i && i < s.cursor
    {
      HoldsAt(s, k, j, s.blocks[i]);
    }
    forall k: nat, j: nat, k': nat, j': nat | Holds(s, k, j, s.blocks[i]) && Holds(s, k', j', s.blocks[i])
      ensures k == k' && j == j'
    {
      HoldsAt(s, k, j, s.blocks[i]);
      HoldsAt(s, k', j', s.blocks[i]);
      if k < k' {
        OffsetMonotone(s, k + 1, k');
      } else if k' < k {
        OffsetMonotone(s, k' + 1, k);
      }
    }
    if i < s.cursor {
      assert s.queue[..|s.queue|] == s.queue;
      var k, j := OwnerOf(s, |s.queue|, |held| - s.cursor + i);
      assert Holds(s, k, j, s.blocks[i]);
    }
  }
}
