/**
 Each operation of the channel manager keeps the invariant. Where one does not,
 the exact condition under which it does is proved instead.
 */
module ManagerSteps {
  import opened BatcherTypes
  import opened ChannelBuilders
  import opened Channels
  import opened ManagerState
  import opened ManagerInvariant
  import opened Chains

  lemma NewManagerInv<C>(cfg: Config)
    requires cfg.Check()
    ensures MgrInv(NewManager<C>(cfg)) && Excess(NewManager<C>(cfg)) == 0
  {
  }

  lemma ClearKeeps<C>(s: Mgr<C>, l1Origin: nat)
    requires Shape(s)
    ensures MgrInv(Clear(s, l1Origin)) && Excess(Clear(s, l1Origin)) == 0
  {
  }

  /** The chain's own discipline: no block hash is zero, and a child's number is its parent's plus one. */
  ghost predicate BlockOk<C>(s: Mgr<C>, b: Block) {
    b.hash != 0 && (s.tip != 0 && b.parent == s.tip ==> b.number == s.tipNumber + 1)
  }

  lemma AddL2BlockKeeps<C>(s: Mgr<C>, b: Block)
    requires MgrInv(s) && BlockOk(s, b) && AddL2Block(s, b).Some?
    ensures MgrInv(AddL2Block(s, b).value)
  {
    hide ChanInv, Distinct, Chained, Held;
    if s.blocks == [] {
      EmptyHoldsNothing(s);
    }
    ChainedEnqueue(Held(s.chans, s.queue), s.blocks, s.cursor, b);
  }

  lemma AddL2BlockCounts<C>(s: Mgr<C>, b: Block)
    requires s.WellFormed() && AddL2Block(s, b).Some?
    ensures Excess(AddL2Block(s, b).value) == Excess(s)
  {
    assert (s.blocks + [b])[s.cursor..] == s.blocks[s.cursor..] + [b];
    DaSumConcat(s.blocks[s.cursor..], [b]);
  }

  /** With no block queued, no queued channel has a block. */
  lemma EmptyHoldsNothing<C>(s: Mgr<C>)
    requires s.WellFormed() && Retained(s) && s.blocks == []
    ensures Held(s.chans, s.queue) == []
  {
    if Held(s.chans, s.queue) != [] {
      assert s.queue[..|s.queue|] == s.queue;
      var k, j := OwnerOf(s, |s.queue|, 0);
      assert false;
    }
  }

  // ---------------------------------------------------------------- transaction results

  /** A channel is replaced by one with the same id and blocks. */
  ghost predicate SameBuilding(ch: Chan, ch': Chan) {
    ch'.builder.blocks == ch.builder.blocks && ch'.builder.id == ch.builder.id
  }

  lemma UpdateShape<C>(s: Mgr<C>, c: C, ch: Chan, txs: map<TxId, C>)
    requires Shape(s) && c in s.chans && ChanInv(ch) && SameBuilding(s.chans[c], ch)
    requires forall t :: t in txs ==> txs[t] in s.chans
    ensures Shape(s.(chans := s.chans[c := ch], txs := txs))
  {
    hide ChanInv, Distinct;
  }

  lemma UpdateConserves<C>(s: Mgr<C>, c: C, ch: Chan, txs: map<TxId, C>)
    requires s.WellFormed() && c in s.chans && SameBuilding(s.chans[c], ch)
    requires forall t :: t in txs ==> txs[t] in s.chans
    ensures var s' := s.(chans := s.chans[c := ch], txs := txs);
      s'.WellFormed() && (Conserved(s') <==> Conserved(s)) && (Retained(s') <==> Retained(s)) && Excess(s') == Excess(s)
  {
    hide Chained, Held, DaSum;
    HeldSame(s.chans, s.chans[c := ch], s.queue);
  }

  /** Replacing a channel by one with the same id and blocks leaves the blocks conserved. */
  lemma UpdateKeeps<C>(s: Mgr<C>, c: C, ch: Chan, txs: map<TxId, C>)
    requires MgrInv(s) && c in s.chans && ChanInv(ch) && SameBuilding(s.chans[c], ch)
    requires forall t :: t in txs ==> txs[t] in s.chans && (txs[t] in s.queue || (t in s.txs && s.txs[t] == txs[t]))
    requires s.tip == 0 ==> txs == map[]
    ensures var s' := s.(chans := s.chans[c := ch], txs := txs);
      Shape(s') && Conserved(s') && Retained(s') && StaleBelow(s') && TipOk(s') && Excess(s') == Excess(s)
  {
    hide Shape, ChanInv, Conserved, Retained, Indexed, Excess;
    ShapeWellFormed(s);
    UpdateShape(s, c, ch, txs);
    UpdateConserves(s, c, ch, txs);
  }

  /** A transaction leaves the index and its channel's pending set together. */
  lemma IndexedRemove<C>(s: Mgr<C>, id: TxId, ch: Chan)
    requires s.WellFormed() && Indexed(s) && id in s.txs
    requires ch.pending == s.chans[s.txs[id]].pending - {id}
    ensures var s' := s.(txs := s.txs - {id}, chans := s.chans[s.txs[id] := ch]);
      s'.WellFormed() && Indexed(s')
  {
  }

  lemma RemoveKeeps<C>(s: Mgr<C>, id: TxId, ch: Chan)
    requires MgrInv(s) && id in s.txs && ChanInv(ch)
    requires ch.pending == s.chans[s.txs[id]].pending - {id}
    requires ch.builder.blocks == s.chans[s.txs[id]].builder.blocks && ch.builder.id == s.chans[s.txs[id]].builder.id
    ensures var s' := s.(txs := s.txs - {id}, chans := s.chans[s.txs[id] := ch]);
      MgrInv(s') && Excess(s') == Excess(s)
  {
    hide ChanInv, Conserved, Retained, StaleBelow;
    UpdateKeeps(s, s.txs[id], ch, s.txs - {id});
    IndexedRemove(s, id, ch);
  }

  /** A failed transaction can always be rewound, and its channel sends it again. */
  lemma TxFailedStep<C>(s: Mgr<C>, id: TxId)
    requires MgrInv(s)
    ensures id in s.txs ==> CanFail(s.chans[s.txs[id]], id)
    ensures MgrInv(ManagerTxFailed(s, id)) && Excess(ManagerTxFailed(s, id)) == Excess(s)
  {
    hide ChanInv, Conserved, Retained, StaleBelow, CanRewind;
    if id in s.txs {
      var c := s.txs[id];
      PendingCanFail(s.chans[c], id);
      TxFailedKeeps(s.chans[c], id);
      RemoveKeeps(s, id, TxFailed(s.chans[c], id));
    }
  }

  /** The state between recording a confirmation and reacting to a time-out. */
  ghost function Recorded<C>(s: Mgr<C>, id: TxId, l1: nat): Mgr<C>
    requires s.WellFormed() && id in s.txs
  {
    s.(txs := s.txs - {id}, chans := s.chans[s.txs[id] := TxConfirmed(s.chans[s.txs[id]], id, l1).0])
  }

  lemma RecordedKeeps<C>(s: Mgr<C>, id: TxId, l1: nat)
    requires MgrInv(s) && id in s.txs
    ensures MgrInv(Recorded(s, id, l1)) && Excess(Recorded(s, id, l1)) == Excess(s)
  {
    hide ChanInv, Conserved, Retained, StaleBelow;
    var c := s.txs[id];
    TxConfirmedKeeps(s.chans[c], id, l1);
    RemoveKeeps(s, id, TxConfirmed(s.chans[c], id, l1).0);
  }
}
