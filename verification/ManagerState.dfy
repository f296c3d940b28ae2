/**
 The channel manager as a value, and each of its operations as a function on
 that value. `C` is the identity of a channel object: channels are compared by
 identity, and `chans` holds every channel object ever created, queued or not.
 */
module ManagerState {
  import opened BatcherTypes
  import opened ChannelBuilders
  import opened Channels

  datatype Mgr<C(==)> = Mgr(
    blocks: seq<Block>,
    cursor: nat,
    l1OriginLast: nat,
    cfg: Config,
    tip: Hash,
    tipNumber: nat,  // the number of the block whose hash is `tip`
    current: Option<C>,
    queue: seq<C>,
    chans: map<C, Chan>,
    txs: map<TxId, C>,
    pendingDaBytes: int)
  {
    predicate WellFormed() {
      && cursor <= |blocks|
      && (forall c :: c in queue ==> c in chans)
      && (forall t :: t in txs ==> txs[t] in chans)
      && (current.Some? ==> current.value in chans)
    }
  }

  function NewManager<C(==)>(cfg: Config): Mgr<C> {
    Mgr([], 0, 0, cfg, 0, 0, None, [], map[], map[], 0)
  }

  function Clear<C(==)>(s: Mgr<C>, l1Origin: nat): Mgr<C> {
    s.(blocks := [], cursor := 0, l1OriginLast := l1Origin, tip := 0, current := None, queue := [],
       txs := map[], pendingDaBytes := 0)
  }

  /** `None` is the reorg error: the block does not extend the tip. */
  function AddL2Block<C(==)>(s: Mgr<C>, b: Block): Option<Mgr<C>> {
    if s.tip != 0 && s.tip != b.parent then None
    else Some(s.(blocks := s.blocks + [b], tip := b.hash, tipNumber := b.number,
                 pendingDaBytes := s.pendingDaBytes + b.daSize))
  }

  // ---------------------------------------------------------------- transaction results

  function ManagerTxFailed<C(==)>(s: Mgr<C>, id: TxId): Mgr<C>
    requires s.WellFormed()
    requires id in s.txs ==> CanFail(s.chans[s.txs[id]], id)
  {
    if id !in s.txs then s
    else s.(txs := s.txs - {id}, chans := s.chans[s.txs[id] := TxFailed(s.chans[s.txs[id]], id)])
  }

  /** `None` is a panic: the timed out channel's first block is no longer queued. */
  function ManagerTxConfirmed<C(==)>(s: Mgr<C>, id: TxId, l1: nat): Option<Mgr<C>>
    requires s.WellFormed()
  {
    if id !in s.txs then Some(s)
    else
      var c := s.txs[id];
      var (ch, timedOut) := TxConfirmed(s.chans[c], id, l1);
      var s1 := s.(txs := s.txs - {id}, chans := s.chans[c := ch]);
      if timedOut then Invalidate(s1, c) else Some(s1)
  }

  predicate CanRewindTo<C(==)>(s: Mgr<C>, b: Block) {
    && s.blocks != []
    && s.blocks[0].number <= b.number
    && b.number - s.blocks[0].number < |s.blocks|
    && s.blocks[b.number - s.blocks[0].number].hash == b.hash
    && b.number - s.blocks[0].number < s.cursor
  }

  /** The position of a channel in the queue, and 0 when it is not there. */
  function IndexOf<C(==)>(queue: seq<C>, c: C): (k: nat)
    ensures c in queue ==> k < |queue| && queue[k] == c
    ensures c !in queue ==> k == 0
  {
    if queue == [] || queue[0] == c || c !in queue[1..] then 0 else 1 + IndexOf(queue[1..], c)
  }

  /** Rewinds the block cursor to the channel's first block and drops the channel and all newer ones. */
  function Invalidate<C(==)>(s: Mgr<C>, c: C): Option<Mgr<C>>
    requires s.WellFormed() && c in s.chans
  {
    var owned := s.chans[c].builder.blocks;
    if owned != [] && !CanRewindTo(s, owned[0]) then None
    else
      var cursor := if owned != [] then owned[0].number - s.blocks[0].number else s.cursor;
      var k := IndexOf(s.queue, c);
      Some(s.(cursor := cursor,
              pendingDaBytes := s.pendingDaBytes + DaSum(s.blocks[cursor..s.cursor]),
              queue := s.queue[..k],
              txs := map t | t in s.txs && s.txs[t] !in s.queue[k..] :: s.txs[t],
              current := None))
  }

  // ---------------------------------------------------------------- building transactions

  /**
   Everything one `getReadyChannel` call gets from outside: the channel it creates if it needs one, absent when the
   factory fails, and its pipeline's answers.
   */
  datatype Env<C> = Env(newborn: Option<C>, id: ChannelId, answers: seq<AddResult>, script: FrameScript)

  datatype Ready<C> = Ready(channel: C) | NoData | Failed

  function FirstWithTxData<C(==)>(chans: map<C, Chan>, queue: seq<C>): (first: Option<C>)
    requires forall c :: c in queue ==> c in chans
    ensures first.Some? ==> first.value in queue && chans[first.value].HasTxData()
    ensures first.None? ==> forall c :: c in queue ==> !chans[c].HasTxData()
  {
    if queue == [] then None
    else if chans[queue[0]].HasTxData() then Some(queue[0])
    else FirstWithTxData(chans, queue[1..])
  }

  predicate HasSpace<C(==)>(s: Mgr<C>)
    requires s.WellFormed()
  {
    s.current.Some? && !s.chans[s.current.value].IsFull()
  }

  function EnsureChannelWithSpace<C(==)>(s: Mgr<C>, env: Env<C>): Mgr<C>
    requires s.WellFormed() && (HasSpace(s) || env.newborn.Some?)
  {
    if HasSpace(s) then s
    else s.(current := env.newborn, queue := s.queue + [env.newborn.value],
            chans := s.chans[env.newborn.value := NewChan(s.cfg, env.id, s.l1OriginLast)])
  }

  datatype LoopOut = LoopOut(builder: Builder, added: nat, ok: bool)

  /** Adds blocks until none is left, the channel is full, or the pipeline breaks. */
  function AddLoop(b: Builder, todo: seq<Block>, answers: seq<AddResult>): (out: LoopOut)
    ensures out.added <= |todo|
    decreases |todo|
  {
    if todo == [] then LoopOut(b, 0, true)
    else
      var (b1, status) := AddBlock(b, todo[0], if answers == [] then Broken else answers[0]);
      match status
      case AddFull => LoopOut(b1, 0, true)
      case AddError => LoopOut(b1, 0, false)
      case AddOk =>
        if b1.IsFull() then LoopOut(b1, 1, true)
        else
          var rest := AddLoop(b1, todo[1..], if answers == [] then [] else answers[1..]);
          rest.(added := rest.added + 1)
  }

  /** Replaces the builder of the current channel. */
  function SetBuilder<C(==)>(s: Mgr<C>, b: Builder): Mgr<C>
    requires s.WellFormed() && s.current.Some?
  {
    s.(chans := s.chans[s.current.value := s.chans[s.current.value].(builder := b)])
  }

  function CurrentBuilder<C(==)>(s: Mgr<C>): Builder
    requires s.WellFormed() && s.current.Some?
  {
    s.chans[s.current.value].builder
  }

  function ProcessBlocks<C(==)>(s: Mgr<C>, answers: seq<AddResult>): (r: (Mgr<C>, bool))
    requires s.WellFormed() && s.current.Some?
    ensures r.0.WellFormed() && r.0.current == s.current
  {
    var out := AddLoop(CurrentBuilder(s), s.blocks[s.cursor..], answers);
    (SetBuilder(s, out.builder).(cursor := s.cursor + out.added,
                                 pendingDaBytes := s.pendingDaBytes - DaSum(s.blocks[s.cursor..s.cursor + out.added])),
     out.ok)
  }

  /** Fills the current channel, registers the L1 head and emits frames. */
  function FillCurrent<C(==)>(s: Mgr<C>, l1Head: nat, answers: seq<AddResult>, script: FrameScript): (r: (Mgr<C>, Ready<C>))
    requires s.WellFormed() && s.current.Some?
    ensures r.0.WellFormed() && r.0.current == s.current
    ensures r.1.Ready? ==> r.1.channel in r.0.chans && r.0.chans[r.1.channel].HasTxData()
  {
    var (s1, ok1) := ProcessBlocks(s, answers);
    if !ok1 then (s1, Failed)
    else
      var s2 := SetBuilder(s1, CheckTimeout(CurrentBuilder(s1), l1Head));
      var (b, ok2) := OutputFrames(CurrentBuilder(s2), script);
      var s3 := SetBuilder(s2, b);
      if !ok2 then (s3, Failed)
      else if s3.chans[s3.current.value].HasTxData() then (s3, Ready(s3.current.value))
      else (s3, NoData)
  }

  /** Finds or builds a channel with something to send. */
  function GetReadyChannel<C(==)>(s: Mgr<C>, l1Head: nat, env: Env<C>): (r: (Mgr<C>, Ready<C>))
    requires s.WellFormed()
    ensures r.0.WellFormed()
    ensures r.1.Ready? ==> r.1.channel in r.0.chans && r.0.chans[r.1.channel].HasTxData()
  {
    var first := FirstWithTxData(s.chans, s.queue);
    if first.Some? then (s, Ready(first.value))
    else if s.cursor == |s.blocks| then (s, NoData)
    else if !HasSpace(s) && env.newborn.None? then (s, Failed)
    else FillCurrent(EnsureChannelWithSpace(s, env), l1Head, env.answers, env.script)
  }

  /** `None` is the end-of-data error. */
  function ManagerNextTx<C(==)>(s: Mgr<C>, c: C): (Mgr<C>, Option<TxData>)
    requires s.WellFormed() && c in s.chans
  {
    if !s.chans[c].HasTxData() then (s, None)
    else
      var (ch, tx) := NextTxData(s.chans[c]);
      (s.(chans := s.chans[c := ch],
          l1OriginLast := Max(s.l1OriginLast, ch.builder.latestL1),
          txs := s.txs[IdOf(tx.frames) := c]), Some(tx))
  }

  datatype TxOut = Tx(data: TxData) | TxEof | TxError

  function SendFrom<C(==)>(s: Mgr<C>, r: Ready<C>): (Mgr<C>, TxOut)
    requires s.WellFormed() && (r.Ready? ==> r.channel in s.chans)
  {
    match r
    case NoData => (s, TxEof)
    case Failed => (s, TxError)
    case Ready(c) =>
      var (s', tx) := ManagerNextTx(s, c);
      (s', if tx.Some? then Tx(tx.value) else TxEof)
  }

  /** Whether the ready channel is thrown away because the cheaper DA type changed before any of it was sent. */
  predicate SwitchesDaType<C(==)>(s: Mgr<C>, r: Ready<C>, newCfg: Config)
    requires r.Ready? ==> r.channel in s.chans
  {
    r.Ready? && s.chans[r.channel].NoneSubmitted() && newCfg.useBlobs != s.cfg.useBlobs
  }

  /** Requeues the channel's blocks and starts over with another configuration. `None` is a panic. */
  function Rebuild<C(==)>(s: Mgr<C>, c: C, l1Head: nat, newCfg: Config, env: Env<C>): Option<(Mgr<C>, TxOut)>
    requires s.WellFormed() && c in s.chans
  {
    match Invalidate(s, c)
    case None => None
    case Some(s2) =>
      var (s3, r3) := GetReadyChannel(s2.(cfg := newCfg), l1Head, env);
      Some(SendFrom(s3, r3))
  }

  /** `None` is a panic while requeueing the blocks of the ready channel. */
  function ManagerTxData<C(==)>(s: Mgr<C>, l1Head: nat, newCfg: Config, env: Env<C>, env2: Env<C>): Option<(Mgr<C>, TxOut)>
    requires s.WellFormed()
  {
    var (s1, r1) := GetReadyChannel(s, l1Head, env);
    if SwitchesDaType(s1, r1, newCfg) then Rebuild(s1, r1.channel, l1Head, newCfg, env2) else Some(SendFrom(s1, r1))
  }

  // ---------------------------------------------------------------- pruning

  /** `None` is a panic: more blocks pruned than queued. */
  function PruneSafeBlocks<C(==)>(s: Mgr<C>, n: nat): Option<Mgr<C>> {
    if |s.blocks| < n then None
    else Some(s.(blocks := s.blocks[n..], cursor := if s.cursor < n then 0 else s.cursor - n))
  }

  function PruneChannels<C(==)>(s: Mgr<C>, n: nat): Option<Mgr<C>> {
    if |s.queue| < n then None
    else Some(s.(queue := s.queue[n..],
                 current := if s.current.Some? && s.current.value in s.queue[..n] then None else s.current))
  }
}
