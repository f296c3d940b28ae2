/**
 What single operations of the channel manager do and leave alone: how far an
 invalidation goes, what a transaction result changes, what starting afresh means.
 */
module ManagerEffects {
  import opened BatcherTypes
  import opened ChannelBuilders
  import opened Channels
  import opened ManagerState
  import opened ManagerInvariant
  import opened ManagerSteps
  import opened ManagerInvalidate
  import opened ManagerRuns
  import opened Chains

  /**
   An invalidation goes no further than it must: the cursor returns to the channel's own first block, older channels stay
   with their transactions, and the channel and all newer ones go with theirs.
   */
  lemma InvalidateLeast<C>(s: Mgr<C>, c: C)
    requires MgrInv(s) && c in s.queue && Invalidate(s, c).Some?
    ensures var s' := Invalidate(s, c).value;
      && (exists k :: 0 <= k < |s.queue| && s.queue[k] == c && s'.queue == s.queue[..k]
                      && forall t :: t in s'.txs <==> t in s.txs && s.txs[t] !in s.queue[k..])
      && (forall t :: t in s'.txs ==> s'.txs[t] == s.txs[t])
      && (Owned(s, c) == [] ==> s'.cursor == s.cursor)
      && (Owned(s, c) != [] ==> s'.cursor < s.cursor && s.blocks[s'.cursor] == Owned(s, c)[0])
      && s' == s.(cursor := s'.cursor, pendingDaBytes := s'.pendingDaBytes, queue := s'.queue, txs := s'.txs, current := None)
  {
    hide ChanInv, Distinct, Held, Chained, Indexed, StaleBelow, Retained, TipOk, DaSum, IndexOf;
    if Owned(s, c) != [] {
      FirstOwned(s, c);
      ChainedRewind(Held(s.chans, s.queue), s.blocks, s.cursor, Offset(s, IndexOf(s.queue, c)));
    }
  }

  /** A failed transaction leaves the index, and its channel is rewound by the least amount; nothing else changes. */
  lemma FailedExact<C>(s: Mgr<C>, id: TxId)
    requires MgrInv(s) && (id in s.txs ==> CanFail(s.chans[s.txs[id]], id))
    ensures id !in s.txs ==> ManagerTxFailed(s, id) == s
    ensures id in s.txs ==>
      var s', c := ManagerTxFailed(s, id), s.txs[id];
      && s' == s.(txs := s.txs - {id}, chans := s.chans[c := s'.chans[c]])
      && s'.chans[c] == s.chans[c].(builder := s.chans[c].builder.(frameCursor := s'.chans[c].builder.frameCursor),
                                    pending := s.chans[c].pending - {id})
      && s'.chans[c].builder.frameCursor <= s.chans[c].builder.frameCursor
      && LeavesToSend(id, s'.chans[c].builder.frameCursor)
      && (forall k :: s'.chans[c].builder.frameCursor < k <= s.chans[c].builder.frameCursor ==> !LeavesToSend(id, k))
  {
    hide ChanInv, Conserved, Retained, StaleBelow, TipOk, LeavesToSend, TxFailed, CanFail;
    if id in s.txs {
      TxFailedExact(s.chans[s.txs[id]], id);
    }
  }

  /** A confirmation that does not time its channel out moves the transaction from pending to confirmed, no more. */
  lemma ConfirmedExact<C>(s: Mgr<C>, id: TxId, l1: nat)
    requires s.WellFormed() && Indexed(s)
    ensures id !in s.txs ==> ManagerTxConfirmed(s, id, l1) == Some(s)
    ensures TimesOut(s, id, l1) ==> ManagerTxConfirmed(s, id, l1) == Invalidate(Recorded(s, id, l1), s.txs[id])
    ensures id in s.txs ==>
      var s', c := Recorded(s, id, l1), s.txs[id];
      && (!TimesOut(s, id, l1) ==> ManagerTxConfirmed(s, id, l1) == Some(s'))
      && s' == s.(txs := s.txs - {id}, chans := s.chans[c := s'.chans[c]])
      && s'.chans[c].pending == s.chans[c].pending - {id} && s'.chans[c].confirmed == s.chans[c].confirmed[id := l1]
      && s'.chans[c].builder == s.chans[c].builder.(timeout := s'.chans[c].builder.timeout,
                                                    timeoutReason := s'.chans[c].builder.timeoutReason)
      && (TimesOut(s, id, l1) <==> s'.chans[c].IsTimedOut())
  {
    hide Invalidate, InclusionConstraint, Wrap64;
  }

  /** A block is accepted exactly when it extends the newest block, and then it is the newest. */
  lemma AddExact<C>(s: Mgr<C>, b: Block)
    requires MgrInv(s)
    ensures s.blocks != [] ==> (AddL2Block(s, b).Some? <==> b.parent == Last(s.blocks).hash || s.tip == 0)
    ensures s.tip == 0 ==> AddL2Block(s, b).Some?
    ensures AddL2Block(s, b).Some? ==>
      var s' := AddL2Block(s, b).value;
      && s'.blocks == s.blocks + [b] && s'.cursor == s.cursor && s'.tip == b.hash
      && s'.queue == s.queue && s'.chans == s.chans && s'.txs == s.txs && s'.current == s.current
      && s'.cfg == s.cfg && s'.l1OriginLast == s.l1OriginLast
  {
    hide ChanInv, Conserved, Retained, StaleBelow, Indexed;
  }

  /** A cleared manager is a fresh one that knows the L1 origin it is given and its configuration. */
  lemma ClearedIsFresh<C>(s: Mgr<C>, l1Origin: nat)
    ensures Clear(s, l1Origin).(chans := map[], tipNumber := 0) == NewManager<C>(s.cfg).(l1OriginLast := l1Origin)
  {
  }
}
