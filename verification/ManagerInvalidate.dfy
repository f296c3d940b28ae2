/**
 Invalidating a channel, the one operation that can lose blocks or panic. Both
 are characterised exactly.
 */
module ManagerInvalidate {
  import opened BatcherTypes
  import opened Channels
  import opened ManagerState
  import opened ManagerInvariant
  import opened Chains

  /** Channels reach invalidation from the queue, or from the index after they were pruned. */
  ghost predicate QueuedOrStale<C>(s: Mgr<C>, c: C)
    requires s.WellFormed()
  {
    && c in s.chans
    && (c in s.queue || forall b :: b in s.chans[c].builder.blocks ==> b.number < Frontier(s))
  }

  ghost function Owned<C>(s: Mgr<C>, c: C): seq<Block>
    requires c in s.chans
  {
    s.chans[c].builder.blocks
  }

  /** The blocks of the channels that invalidating `c` drops. */
  ghost function Dropped<C>(s: Mgr<C>, c: C): seq<Block>
    requires s.WellFormed()
  {
    Held(s.chans, s.queue[IndexOf(s.queue, c)..])
  }

  lemma HeldSplit<C>(s: Mgr<C>, k: nat)
    requires s.WellFormed() && k <= |s.queue|
    ensures Held(s.chans, s.queue) == Held(s.chans, s.queue[..k]) + Held(s.chans, s.queue[k..])
  {
    assert s.queue == s.queue[..k] + s.queue[k..];
    HeldConcat(s.chans, s.queue[..k], s.queue[k..]);
  }

  /** The first block of a queued channel, seen in the concatenation. */
  lemma FirstOwned<C>(s: Mgr<C>, c: C)
    requires s.WellFormed() && c in s.queue && Owned(s, c) != []
    ensures var k := IndexOf(s.queue, c);
      && Offset(s, k) < |Held(s.chans, s.queue)|
      && Held(s.chans, s.queue)[Offset(s, k)] == Owned(s, c)[0]
      && Held(s.chans, s.queue)[..Offset(s, k)] == Held(s.chans, s.queue[..k])
  {
    var k := IndexOf(s.queue, c);
    HeldAt(s, k);
    HeldSplit(s, k);
  }

  /** Invalidation panics exactly when the channel's first block has been pruned. */
  lemma InvalidatePanics<C>(s: Mgr<C>, c: C)
    requires MgrInv(s) && QueuedOrStale(s, c)
    ensures Invalidate(s, c).None? <==> Owned(s, c) != [] && Owned(s, c)[0].number < Frontier(s)
  {
    hide ChanInv, Held, Chained;
    if c in s.queue && Owned(s, c) != [] && Frontier(s) <= Owned(s, c)[0].number {
      FirstOwned(s, c);
      ChainedRewind(Held(s.chans, s.queue), s.blocks, s.cursor, Offset(s, IndexOf(s.queue, c)));
    }
  }

  /** The cursor returns to the channel's first block, whose predecessors are what is still held. */
  lemma RewindConserves<C>(s: Mgr<C>, c: C)
    requires MgrInv(s) && QueuedOrStale(s, c) && Invalidate(s, c).Some? && Owned(s, c) != []
    ensures var s' := Invalidate(s, c).value; s'.WellFormed() && Conserved(s')
  {
    hide ChanInv, Held, Chained;
    InvalidatePanics(s, c);
    FirstOwned(s, c);
    ChainedRewind(Held(s.chans, s.queue), s.blocks, s.cursor, Offset(s, IndexOf(s.queue, c)));
  }

  lemma DropSplits<C>(q: seq<C>, k: nat)
    requires k <= |q| && Distinct(q)
    ensures forall d :: d in q <==> d in q[..k] || d in q[k..]
    ensures forall d :: d in q[..k] ==> d !in q[k..]
    ensures Distinct(q[..k])
  {
    assert q == q[..k] + q[k..];
    forall d | d in q[..k]
      ensures d !in q[k..]
    {
      var i :| 0 <= i < k && q[i] == d;
    }
  }

  lemma InvalidateShape<C>(s: Mgr<C>, c: C)
    requires Shape(s) && TipOk(s) && Retained(s) && c in s.chans && Invalidate(s, c).Some?
    ensures var s' := Invalidate(s, c).value; Shape(s') && TipOk(s') && Retained(s')
  {
    hide ChanInv, Distinct, DaSum;
    DropSplits(s.queue, IndexOf(s.queue, c));
  }

  lemma InvalidateIndexed<C>(s: Mgr<C>, c: C)
    requires Shape(s) && Indexed(s) && c in s.chans && Invalidate(s, c).Some?
    ensures var s' := Invalidate(s, c).value; s'.WellFormed() && Indexed(s')
  {
    hide ChanInv, Distinct, DaSum;
    DropSplits(s.queue, IndexOf(s.queue, c));
  }

  /** An indexed channel that is no longer queued was not queued before either: newer ones lose their index entries. */
  lemma InvalidateStale<C>(s: Mgr<C>, c: C)
    requires Shape(s) && StaleBelow(s) && c in s.chans && Invalidate(s, c).Some?
    ensures var s' := Invalidate(s, c).value; s'.WellFormed() && StaleBelow(s')
  {
    hide ChanInv, Distinct, DaSum;
    DropSplits(s.queue, IndexOf(s.queue, c));
  }

  /** Everything but conservation survives any invalidation. */
  lemma InvalidateRest<C>(s: Mgr<C>, c: C)
    requires MgrInv(s) && c in s.chans && Invalidate(s, c).Some?
    ensures var s' := Invalidate(s, c).value;
      Shape(s') && Retained(s') && Indexed(s') && StaleBelow(s') && TipOk(s')
  {
    hide ChanInv, Conserved, Retained, Indexed, StaleBelow, TipOk, Distinct, Invalidate;
    InvalidateShape(s, c);
    InvalidateIndexed(s, c);
    InvalidateStale(s, c);
  }

  lemma InvalidateCounts<C>(s: Mgr<C>, c: C)
    requires s.WellFormed() && c in s.chans && Invalidate(s, c).Some?
    ensures Invalidate(s, c).value.WellFormed() && Excess(Invalidate(s, c).value) == Excess(s)
  {
    var s' := Invalidate(s, c).value;
    assert s.blocks[s'.cursor..] == s.blocks[s'.cursor..s.cursor] + s.blocks[s.cursor..];
    DaSumConcat(s.blocks[s'.cursor..s.cursor], s.blocks[s.cursor..]);
  }

  /** A queued block behind the queued channels means the cursor is past some block. */
  lemma HeldMeansCursor<C>(s: Mgr<C>)
    requires s.WellFormed() && Conserved(s) && Retained(s) && Held(s.chans, s.queue) != []
    ensures 0 < s.cursor
  {
    assert s.queue[..|s.queue|] == s.queue;
    var k, j := OwnerOf(s, |s.queue|, 0);
    var own := s.chans[s.queue[k]].builder.blocks;
    assert s.queue[k] in s.queue;
    HoldsAt(s, k, |own| - 1, Last(own));
    ChainedNumbers(Held(s.chans, s.queue), s.blocks, s.cursor);
  }

  /**
   An invalidation that does not panic keeps the invariant exactly when the channel has a block of its own,
   or no dropped channel has any. A blockless channel does not move the cursor, so blocks that newer
   channels hold are lost with them.
   */
  lemma InvalidateExact<C>(s: Mgr<C>, c: C)
    requires MgrInv(s) && QueuedOrStale(s, c) && Invalidate(s, c).Some?
    ensures MgrInv(Invalidate(s, c).value) <==> Owned(s, c) != [] || Dropped(s, c) == []
    ensures Invalidate(s, c).value.WellFormed() && Excess(Invalidate(s, c).value) == Excess(s)
  {
    hide ChanInv, Held, Chained, Retained, Indexed, StaleBelow, TipOk;
    var s' := Invalidate(s, c).value;
    InvalidateRest(s, c);
    InvalidateCounts(s, c);
    if Owned(s, c) != [] {
      RewindConserves(s, c);
    } else {
      var k := IndexOf(s.queue, c);
      var held := Held(s.chans, s.queue);
      HeldSplit(s, k);
      assert held[..Offset(s, k)] == Held(s.chans, s.queue[..k]);
      if Dropped(s, c) == [] {
        assert held == Held(s.chans, s.queue[..k]);
      } else {
        HeldMeansCursor(s);
        DroppingLoses(held, s.blocks, s.cursor, Offset(s, k));
      }
    }
  }
}
