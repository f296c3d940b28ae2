/**
 The channel manager as an object that owns a queue of channel objects. Its value
 is the manager value whose channel identities are the objects themselves.
 */
module ManagerObject {
  import opened BatcherTypes
  import opened ChannelBuilders
  import opened Channels
  import opened ChannelObjects
  import Spec = ManagerState
  import opened ManagerState

  /** What a call gets from outside: the factory's answer and the pipeline's. */
  datatype Outside = Outside(id: ChannelId, factoryFails: bool, answers: seq<AddResult>, script: FrameScript)
  {
    ghost function With(born: Option<Channel>): Env<Channel> {
      Env(born, id, answers, script)
    }
  }

  class ChannelManager {
    var blocks: seq<Block>
    var blockCursor: nat
    var l1OriginLast: nat
    var cfg: Config
    var tip: Hash
    ghost var tipNumber: nat
    var currentChannel: Option<Channel>
    var channelQueue: seq<Channel>
    var txChannels: map<TxId, Channel>
    var pendingDaBytes: int
    ghost var chans: map<Channel, Chan>  // every channel ever created, with its value

    ghost function View(): Mgr<Channel>
      reads this
    {
      Mgr(blocks, blockCursor, l1OriginLast, cfg, tip, tipNumber, currentChannel, channelQueue, chans, txChannels, pendingDaBytes)
    }

    /** The channels and their builders. */
    ghost function Objects(): (r: set<object>)
      reads `chans
      ensures this !in r
    {
      chans.Keys + set c | c in chans :: c.builder
    }

    /** The recorded values are the objects' own, and no two channels share a builder. */
    ghost predicate Mirrors()
      reads `chans, Objects()
    {
      && (forall c :: c in chans ==> c.View() == chans[c])
      && (forall c, d :: c in chans && d in chans && c.builder == d.builder ==> c == d)
    }

    ghost predicate Valid()
      reads this, Objects()
    {
      View().WellFormed() && Mirrors()
    }

    constructor (cfg: Config)
      ensures Valid() && View() == NewManager(cfg)
    {
      blocks, blockCursor, l1OriginLast, this.cfg := [], 0, 0, cfg;
      tip, tipNumber, currentChannel, channelQueue := 0, 0, None, [];
      txChannels, pendingDaBytes, chans := map[], 0, map[];
    }

    method Clear(l1Origin: nat)
      requires Valid()
      modifies this
      ensures Valid() && View() == Spec.Clear(old(View()), l1Origin)
    {
      hide Mirrors;
      assert this !in Objects();
      blocks, blockCursor, l1OriginLast, tip := [], 0, l1Origin, 0;
      currentChannel, channelQueue, pendingDaBytes, txChannels := None, [], 0, map[];
    }

    method AddL2Block(b: Block) returns (ok: bool)
      requires Valid()
      modifies this
      ensures Valid()
      ensures ok == Spec.AddL2Block(old(View()), b).Some?
      ensures View() == if ok then Spec.AddL2Block(old(View()), b).value else old(View())
    {
      hide Mirrors;
      assert this !in Objects();
      if tip != 0 && tip != b.parent {
        return false;
      }
      pendingDaBytes := pendingDaBytes + b.daSize;
      blocks := blocks + [b];
      tip, tipNumber := b.hash, b.number;
      return true;
    }

    lemma MirrorOf(c: Channel)
      requires Mirrors() && c in chans
      ensures c.View() == chans[c]
    {
    }

    /** Working on one channel and recording its new value leaves the other channels as recorded. */
    twostate lemma MirrorsAfter(c: Channel)
      requires old(Mirrors()) && c in old(chans) && chans == old(chans)[c := c.View()]
      requires forall o :: o in old(Objects()) && o != c && o != c.builder ==> unchanged(o)
      ensures Mirrors()
    {
      assert chans.Keys == old(chans).Keys;
      forall d | d in chans && d != c
        ensures d.View() == chans[d]
      {
        assert d in old(Objects()) && d.builder in old(Objects());
        assert d.builder != c.builder;
      }
    }

    /** A new channel object recorded beside the others, which nothing has touched. */
    twostate lemma MirrorsBorn(new c: Channel)
      requires old(Mirrors()) && fresh(c) && fresh(c.builder) && chans == old(chans)[c := c.View()]
      requires forall o :: o in old(Objects()) ==> unchanged(o)
      ensures Mirrors()
    {
      forall d | d in chans && d != c
        ensures d.View() == chans[d] && d.builder != c.builder
      {
        assert d in old(Objects()) && d.builder in old(Objects());
      }
    }

    method FailOn(c: Channel, id: TxId)
      requires Mirrors() && c in chans && CanFail(chans[c], id)
      modifies `chans, Objects()
      ensures Mirrors() && chans == old(chans)[c := Channels.TxFailed(old(chans)[c], id)]
    {
      hide CanFail, Channels.TxFailed, Mirrors;
      MirrorOf(c);
      c.TxFailed(id);
      chans := chans[c := c.View()];
      MirrorsAfter(c);
    }

    method ConfirmOn(c: Channel, id: TxId, l1: nat) returns (timedOut: bool)
      requires Mirrors() && c in chans
      modifies `chans, Objects()
      ensures Mirrors() && chans == old(chans)[c := Channels.TxConfirmed(old(chans)[c], id, l1).0]
      ensures timedOut == Channels.TxConfirmed(old(chans)[c], id, l1).1
    {
      hide Channels.TxConfirmed, Mirrors;
      MirrorOf(c);
      timedOut := c.TxConfirmed(id, l1);
      chans := chans[c := c.View()];
      MirrorsAfter(c);
    }

    method TxFailed(id: TxId)
      requires Valid() && (id in txChannels ==> CanFail(chans[txChannels[id]], id))
      modifies this, Objects()
      ensures Valid() && View() == ManagerTxFailed(old(View()), id)
    {
      hide CanFail, Channels.TxFailed, Mirrors;
      if id in txChannels {
        var c := txChannels[id];
        txChannels := txChannels - {id};
        FailOn(c, id);
      }
    }

    /** Moves the cursor back to a queued block; the blocks it passes count as pending again. */
    method RewindToBlock(b: Block)
      requires Valid() && CanRewindTo(View(), b)
      modifies `blockCursor, `pendingDaBytes
      ensures Valid()
      ensures blockCursor == b.number - blocks[0].number
      ensures pendingDaBytes == old(pendingDaBytes) + DaSum(blocks[blockCursor..old(blockCursor)])
    {
      hide Mirrors;
      assert this !in Objects();
      var initialCursor := blockCursor;
      blockCursor := b.number - blocks[0].number;
      var i := initialCursor;
      while i > blockCursor
        invariant blockCursor == b.number - blocks[0].number
        invariant blockCursor <= i <= initialCursor <= |blocks| && Mirrors()
        invariant pendingDaBytes == old(pendingDaBytes) + DaSum(blocks[i..initialCursor])
      {
        i := i - 1;
        assert blocks[i..initialCursor][1..] == blocks[i + 1..initialCursor];
        pendingDaBytes := pendingDaBytes + blocks[i].daSize;
      }
    }

    /** The position of a channel in the queue, by a scan that keeps 0 if it finds nothing. */
    method FindChannel(c: Channel) returns (k: nat)
      ensures k == IndexOf(channelQueue, c)
    {
      k := 0;
      for i := 0 to |channelQueue|
        invariant c !in channelQueue[..i] && k == 0
      {
        if channelQueue[i] == c {
          IndexOfFirst(channelQueue, c, i);
          return i;
        }
      }
    }

    /** Removes the transactions of every channel from position `k` on. */
    method DropTransactions(k: nat)
      requires k <= |channelQueue| && Mirrors()
      modifies `txChannels
      ensures Mirrors()
      ensures txChannels == map t | t in old(txChannels) && old(txChannels)[t] !in channelQueue[k..] :: old(txChannels)[t]
    {
      hide Mirrors;
      assert this !in Objects();
      var i := k;
      while i < |channelQueue|
        invariant Mirrors()
        invariant k <= i <= |channelQueue|
        invariant txChannels == map t | t in old(txChannels) && old(txChannels)[t] !in channelQueue[k..i] :: old(txChannels)[t]
      {
        assert channelQueue[k..i + 1] == channelQueue[k..i] + [channelQueue[i]];
        txChannels := map t | t in txChannels && txChannels[t] != channelQueue[i] :: txChannels[t];
        i := i + 1;
      }
    }

    /** Only a channel that has blocks moves the cursor. */
    method RewindFor(c: Channel)
      requires Valid() && c in chans && (chans[c].builder.blocks != [] ==> CanRewindTo(View(), chans[c].builder.blocks[0]))
      modifies `blockCursor, `pendingDaBytes
      ensures Valid() && blockCursor <= old(blockCursor)
      ensures blockCursor == var owned := chans[c].builder.blocks;
        if owned != [] then owned[0].number - blocks[0].number else old(blockCursor)
      ensures pendingDaBytes == old(pendingDaBytes) + DaSum(blocks[blockCursor..old(blockCursor)])
    {
      hide Mirrors;
      MirrorOf(c);
      if c.builder.blocks != [] {
        RewindToBlock(c.builder.blocks[0]);
      } else {
        assert blocks[blockCursor..blockCursor] == [];
      }
    }

    /** Removes the channels from position `k` on, and their transactions. */
    method DropFrom(k: nat)
      requires k <= |channelQueue| && Mirrors()
      modifies `txChannels, `channelQueue, `currentChannel
      ensures Mirrors() && channelQueue == old(channelQueue)[..k] && currentChannel == None
      ensures txChannels ==
        map t | t in old(txChannels) && old(txChannels)[t] !in old(channelQueue)[k..] :: old(txChannels)[t]
    {
      hide Mirrors;
      assert this !in Objects();
      DropTransactions(k);
      channelQueue := channelQueue[..k];
      currentChannel := None;
    }

    method HandleChannelInvalidated(c: Channel)
      requires Valid() && c in chans && Invalidate(View(), c).Some?
      modifies this
      ensures Valid() && Some(View()) == Invalidate(old(View()), c) && chans == old(chans)
    {
      hide Mirrors, DaSum, IndexOf, Invalidate, CanRewindTo;
      assert this !in Objects();
      InvalidateDefined(View(), c);
      ghost var s := View();
      RewindFor(c);
      var k := FindChannel(c);
      DropFrom(k);
      InvalidateIs(s, c, View());
    }

    method TxConfirmed(id: TxId, l1: nat)
      requires Valid() && ManagerTxConfirmed(View(), id, l1).Some?
      modifies this, Objects()
      ensures Valid() && Some(View()) == ManagerTxConfirmed(old(View()), id, l1)
    {
      hide Invalidate, Channels.TxConfirmed, Mirrors;
      if id in txChannels {
        var c := txChannels[id];
        txChannels := txChannels - {id};
        var timedOut := ConfirmOn(c, id, l1);
        if timedOut {
          HandleChannelInvalidated(c);
        }
      }
    }

    // ---------------------------------------------------------------- building transactions

    method FirstWithTxData() returns (first: Option<Channel>)
      requires Valid()
      ensures first == Spec.FirstWithTxData(chans, channelQueue)
    {
      for i := 0 to |channelQueue|
        invariant Mirrors()
        invariant Spec.FirstWithTxData(chans, channelQueue) == Spec.FirstWithTxData(chans, channelQueue[i..])
      {
        MirrorOf(channelQueue[i]);
        if channelQueue[i].HasTxData() {
          return Some(channelQueue[i]);
        }
        assert channelQueue[i..][1..] == channelQueue[i + 1..];
      }
      first := None;
    }

    /** A new channel object becomes the current one. */
    method CreateChannel(id: ChannelId) returns (born: Channel)
      requires Valid()
      modifies `currentChannel, `channelQueue, `chans
      ensures Valid() && fresh(born) && fresh(born.builder)
      ensures View() == old(View()).(current := Some(born), queue := old(channelQueue) + [born],
                                     chans := old(chans)[born := NewChan(cfg, id, l1OriginLast)])
    {
      hide NewChan, Mirrors;
      born := new Channel(cfg, id, l1OriginLast);
      assert this !in Objects();
      currentChannel := Some(born);
      channelQueue := channelQueue + [born];
      chans := chans[born := born.View()];
      MirrorsBorn(born);
    }

    method AddOn(c: Channel, block: Block, answer: AddResult) returns (status: AddStatus)
      requires Mirrors() && c in chans
      modifies `chans, Objects()
      ensures Mirrors() && chans == old(chans)[c := old(chans)[c].(builder := AddBlock(old(chans)[c].builder, block, answer).0)]
      ensures status == AddBlock(old(chans)[c].builder, block, answer).1
    {
      hide AddBlock, Mirrors;
      MirrorOf(c);
      status := c.builder.AddBlock(block, answer);
      chans := chans[c := c.View()];
      MirrorsAfter(c);
    }

    method CheckOn(c: Channel, l1: nat)
      requires Mirrors() && c in chans
      modifies `chans, Objects()
      ensures Mirrors() && chans == old(chans)[c := old(chans)[c].(builder := CheckTimeout(old(chans)[c].builder, l1))]
    {
      hide CheckTimeout, Mirrors;
      MirrorOf(c);
      c.builder.CheckTimeout(l1);
      chans := chans[c := c.View()];
      MirrorsAfter(c);
    }

    method OutputOn(c: Channel, script: FrameScript) returns (ok: bool)
      requires Mirrors() && c in chans
      modifies `chans, Objects()
      ensures Mirrors() && chans == old(chans)[c := old(chans)[c].(builder := OutputFrames(old(chans)[c].builder, script).0)]
      ensures ok == OutputFrames(old(chans)[c].builder, script).1
    {
      hide OutputFrames, Mirrors;
      MirrorOf(c);
      ok := c.builder.OutputFrames(script);
      chans := chans[c := c.View()];
      MirrorsAfter(c);
    }

    /** One block: added and no longer pending, or not. */
    method AddOne(c: Channel, block: Block, answer: AddResult) returns (status: AddStatus, full: bool)
      requires Mirrors() && c in chans
      modifies `chans, `pendingDaBytes, Objects()
      ensures Mirrors() && Objects() == old(Objects())
      ensures chans == old(chans)[c := old(chans)[c].(builder := AddBlock(old(chans)[c].builder, block, answer).0)]
      ensures status == AddBlock(old(chans)[c].builder, block, answer).1 && full == chans[c].IsFull()
      ensures pendingDaBytes == old(pendingDaBytes) - if status == AddOk then block.daSize else 0
    {
      hide Mirrors, AddBlock;
      status := AddOn(c, block, answer);
      assert this !in Objects();
      MirrorOf(c);
      full := c.builder.fullErr.Some?;
      if status == AddOk {
        pendingDaBytes := pendingDaBytes - block.daSize;
      }
    }

    /** Feeds blocks to the channel until none is left, it is full, or the pipeline breaks. */
    method AddBlocks(c: Channel, answers: seq<AddResult>) returns (added: nat, ok: bool)
      requires Mirrors() && c in chans && blockCursor <= |blocks|
      modifies `chans, `pendingDaBytes, Objects()
      ensures Mirrors()
      ensures var out := AddLoop(old(chans)[c].builder, blocks[blockCursor..], answers);
        && added == out.added && ok == out.ok
        && chans == old(chans)[c := old(chans)[c].(builder := out.builder)]
        && pendingDaBytes == old(pendingDaBytes) - TakenBytes(blocks, blockCursor, added)
    {
      hide Mirrors, AddBlock, AddLoop, Continues, TakenBytes, DropAnswers;
      ghost var todo, base := blocks[blockCursor..], chans;
      ghost var b, out := base[c].builder, AddLoop(base[c].builder, todo, answers);
      ContinuesFromStart(b, todo, answers);
      TakenNone(blocks, blockCursor);
      added, ok := 0, true;
      var more := true;
      while more && blockCursor + added < |blocks|
        invariant blockCursor + added <= |blocks| && Mirrors() && Objects() == old(Objects())
        invariant chans == base[c := base[c].(builder := b)]
        invariant pendingDaBytes == old(pendingDaBytes) - TakenBytes(blocks, blockCursor, added)
        invariant if more then ok && Continues(out, b, todo, answers, added) else out == LoopOut(b, added, ok)
        decreases more, |blocks| - added
      {
        var block := blocks[blockCursor + added];
        AddLoopUnfolds(out, b, todo, answers, added);
        TakenNext(blocks, blockCursor, added);
        b := AddBlock(b, block, if added < |answers| then answers[added] else Broken).0;
        var status, full := AddOne(c, block, if added < |answers| then answers[added] else Broken);
        if status == AddOk {
          added := added + 1;
          more := !full;
        } else {
          ok := status == AddFull;
          more := false;
        }
      }
      if more {
        ContinuesAtEnd(out, b, todo, answers, added);
      }
    }

    /** The blocks added are behind the cursor, also when the pipeline breaks. */
    method ProcessBlocks(answers: seq<AddResult>) returns (ok: bool)
      requires Valid() && currentChannel.Some?
      modifies this, Objects()
      ensures Valid() && (View(), ok) == Spec.ProcessBlocks(old(View()), answers)
      ensures chans.Keys == old(chans).Keys
    {
      hide Mirrors, AddLoop, DaSum;
      var added: nat;
      added, ok := AddBlocks(currentChannel.value, answers);
      assert this !in Objects();
      blockCursor := blockCursor + added;
    }

    method NextOn(c: Channel) returns (tx: TxData)
      requires Mirrors() && c in chans && chans[c].builder.frameCursor <= |chans[c].builder.frames|
      modifies `chans, Objects()
      ensures Mirrors() && chans == old(chans)[c := Channels.NextTxData(old(chans)[c]).0]
      ensures tx == Channels.NextTxData(old(chans)[c]).1
    {
      hide Channels.NextTxData, Mirrors;
      MirrorOf(c);
      tx := c.NextTxData();
      chans := chans[c := c.View()];
      MirrorsAfter(c);
    }

    /** Hands out the next transaction of a channel and indexes it. */
    method NextTx(c: Channel) returns (tx: Option<TxData>)
      requires Valid() && c in chans
      modifies this, Objects()
      ensures Valid() && (View(), tx) == ManagerNextTx(old(View()), c)
    {
      hide Channels.NextTxData, Mirrors;
      assert this !in Objects();
      MirrorOf(c);
      if !c.HasTxData() {
        return None;
      }
      var data := NextOn(c);
      assert this !in Objects();
      MirrorOf(c);
      l1OriginLast := Max(l1OriginLast, c.builder.latestL1);
      txChannels := txChannels[IdOf(data.frames) := c];
      tx := Some(data);
    }

    /** Fills the current channel, registers the L1 head and emits frames. */
    method FillCurrent(l1Head: nat, answers: seq<AddResult>, script: FrameScript) returns (r: Ready<Channel>)
      requires Valid() && currentChannel.Some?
      modifies this, Objects()
      ensures Valid() && (View(), r) == Spec.FillCurrent(old(View()), l1Head, answers, script)
      ensures chans.Keys == old(chans).Keys && (r.Ready? ==> r.channel in chans)
    {
      hide Mirrors, Spec.ProcessBlocks, ChannelBuilders.CheckTimeout, ChannelBuilders.OutputFrames;
      var ok := ProcessBlocks(answers);
      if !ok {
        return Failed;
      }
      var c := currentChannel.value;
      assert Objects() == old(Objects());
      CheckOn(c, l1Head);
      assert Objects() == old(Objects());
      ok := OutputOn(c, script);
      if !ok {
        return Failed;
      }
      MirrorOf(c);
      r := if c.HasTxData() then Ready(c) else NoData;
    }

    /** Finds or builds a channel with something to send; `born` is the channel created on the way, if any. */
    method GetReadyChannel(l1Head: nat, o: Outside) returns (r: Ready<Channel>, ghost born: Option<Channel>)
      requires Valid()
      modifies this, Objects()
      ensures Valid() && fresh(Objects() - old(Objects())) && (born.Some? ==> fresh(born.value))
      ensures r.Ready? ==> r.channel in chans
      ensures (View(), r) == Spec.GetReadyChannel(old(View()), l1Head, o.With(born))
    {
      hide Mirrors, Spec.FirstWithTxData, Spec.FillCurrent;
      born := None;
      var first := FirstWithTxData();
      if first.Some? {
        return Ready(first.value), None;
      }
      if blockCursor == |blocks| {
        return NoData, None;
      }
      ghost var s := View();
      CurrentSpace();
      if currentChannel.None? || currentChannel.value.builder.fullErr.Some? {
        if o.factoryFails {
          return Failed, None;
        }
        var c := CreateChannel(o.id);
        born := Some(c);
      }
      assert View() == Spec.EnsureChannelWithSpace(s, o.With(born));
      r := FillCurrent(l1Head, o.answers, o.script);
    }

    /** Sends from the channel found, if one was. */
    method SendFrom(r: Ready<Channel>) returns (out: TxOut)
      requires Valid() && (r.Ready? ==> r.channel in chans)
      modifies this, Objects()
      ensures Valid() && (View(), out) == Spec.SendFrom(old(View()), r)
    {
      hide Mirrors, ManagerNextTx;
      match r
      case NoData => out := TxEof;
      case Failed => out := TxError;
      case Ready(c) =>
        var tx := NextTx(c);
        out := if tx.Some? then Tx(tx.value) else TxEof;
    }

    /** Requeues a channel's blocks and starts over with another configuration. `None` is a panic. */
    method Rebuild(c: Channel, l1Head: nat, newCfg: Config, o: Outside) returns (out: Option<TxOut>, ghost born: Option<Channel>)
      requires Valid() && c in chans
      modifies this, Objects()
      ensures out.Some? ==> Valid()
      ensures var spec := Spec.Rebuild(old(View()), c, l1Head, newCfg, o.With(born));
        (out.None? <==> spec.None?) && (out.Some? ==> (View(), out.value) == spec.value)
    {
      hide Mirrors, Spec.GetReadyChannel, Spec.SendFrom, Invalidate;
      MirrorOf(c);
      InvalidateDefined(View(), c);
      if c.builder.blocks != [] && !CanRewind(c.builder.blocks[0]) {
        return None, None;
      }
      HandleChannelInvalidated(c);
      assert this !in Objects();
      cfg := newCfg;
      var r: Ready<Channel>;
      r, born := GetReadyChannel(l1Head, o);
      var sent := SendFrom(r);
      out := Some(sent);
    }

    /** The next transaction, after switching the DA type if the ready channel may still be rebuilt. `None` is a panic. */
    method TxData(l1Head: nat, newCfg: Config, o: Outside, o2: Outside)
      returns (out: Option<TxOut>, ghost born: Option<Channel>, ghost born2: Option<Channel>)
      requires Valid()
      modifies this, Objects()
      ensures out.Some? ==> Valid()
      ensures var spec := ManagerTxData(old(View()), l1Head, newCfg, o.With(born), o2.With(born2));
        (out.None? <==> spec.None?) && (out.Some? ==> (View(), out.value) == spec.value)
    {
      hide Mirrors, Spec.GetReadyChannel, Spec.SendFrom, Spec.Rebuild, Chan.HasTxData;
      var r: Ready<Channel>;
      born2 := None;
      r, born := GetReadyChannel(l1Head, o);
      if r.Ready? {
        MirrorOf(r.channel);
      }
      if r.Ready? && |r.channel.confirmed| == 0 && |r.channel.pending| == 0 && newCfg.useBlobs != cfg.useBlobs {
        out, born2 := Rebuild(r.channel, l1Head, newCfg, o2);
      } else {
        var sent := SendFrom(r);
        out := Some(sent);
      }
    }

    /** Whether the cursor can go back to a block; otherwise the attempt panics. */
    predicate CanRewind(b: Block)
      reads this
      ensures CanRewind(b) == CanRewindTo(View(), b)
    {
      && blocks != [] && blocks[0].number <= b.number && b.number - blocks[0].number < |blocks|
      && blocks[b.number - blocks[0].number].hash == b.hash && b.number - blocks[0].number < blockCursor
    }

    lemma CurrentSpace()
      requires Valid()
      ensures HasSpace(View()) <==> currentChannel.Some? && currentChannel.value.builder.fullErr.None?
    {
    }

    // ---------------------------------------------------------------- pruning

    method PruneSafeBlocks(n: nat)
      requires Valid() && n <= |blocks|
      modifies `blocks, `blockCursor
      ensures Valid() && Some(View()) == Spec.PruneSafeBlocks(old(View()), n)
    {
      hide Mirrors;
      assert this !in Objects();
      blocks := blocks[n..];
      blockCursor := if blockCursor < n then 0 else blockCursor - n;
    }

    method PruneChannels(n: nat)
      requires Valid() && n <= |channelQueue|
      modifies `channelQueue, `currentChannel
      ensures Valid() && Some(View()) == Spec.PruneChannels(old(View()), n)
    {
      hide Mirrors;
      assert this !in Objects();
      var clearCurrent := false;
      for i := 0 to n
        invariant clearCurrent == (currentChannel.Some? && currentChannel.value in channelQueue[..i])
      {
        if currentChannel == Some(channelQueue[i]) {
          clearCurrent := true;
        }
      }
      channelQueue := channelQueue[n..];
      if clearCurrent {
        currentChannel := None;
      }
    }
  }

  /** What an invalidation that does not panic comes to, field by field. */
  lemma InvalidateIs<C>(s: Mgr<C>, c: C, s': Mgr<C>)
    requires s.WellFormed() && c in s.chans && Invalidate(s, c).Some?
    requires var owned, k := s.chans[c].builder.blocks, IndexOf(s.queue, c);
      && s'.cursor == (if owned != [] then owned[0].number - s.blocks[0].number else s.cursor)
      && s'.cursor <= s.cursor
      && s' == s.(cursor := s'.cursor, pendingDaBytes := s.pendingDaBytes + DaSum(s.blocks[s'.cursor..s.cursor]),
                  queue := s.queue[..k], txs := map t | t in s.txs && s.txs[t] !in s.queue[k..] :: s.txs[t], current := None)
    ensures Some(s') == Invalidate(s, c) && s'.WellFormed()
  {
    hide DaSum;
  }

  lemma InvalidateDefined<C>(s: Mgr<C>, c: C)
    requires s.WellFormed() && c in s.chans
    ensures var owned := s.chans[c].builder.blocks;
      Invalidate(s, c).None? <==> owned != [] && !CanRewindTo(s, owned[0])
  {
  }

  ghost function DropAnswers(answers: seq<AddResult>, n: nat): seq<AddResult> {
    if n <= |answers| then answers[n..] else []
  }

  /** After `n` blocks the loop's outcome is what remains to be done from here. */
  ghost predicate Continues(out: LoopOut, b: Builder, todo: seq<Block>, answers: seq<AddResult>, n: nat)
    requires n <= |todo|
  {
    var rest := AddLoop(b, todo[n..], DropAnswers(answers, n));
    out == rest.(added := rest.added + n)
  }

  lemma AddLoopUnfolds(out: LoopOut, b: Builder, todo: seq<Block>, answers: seq<AddResult>, n: nat)
    requires n < |todo| && Continues(out, b, todo, answers, n)
    ensures var (b1, status) := AddBlock(b, todo[n], if n < |answers| then answers[n] else Broken);
      match status
      case AddFull => out == LoopOut(b1, n, true)
      case AddError => out == LoopOut(b1, n, false)
      case AddOk => if b1.IsFull() then out == LoopOut(b1, n + 1, true) else Continues(out, b1, todo, answers, n + 1)
  {
    hide AddBlock;
    assert todo[n..][0] == todo[n] && todo[n..][1..] == todo[n + 1..];
    var rest := DropAnswers(answers, n);
    assert (if rest == [] then [] else rest[1..]) == DropAnswers(answers, n + 1);
    assert (if rest == [] then Broken else rest[0]) == (if n < |answers| then answers[n] else Broken);
  }

  lemma ContinuesFromStart(b: Builder, todo: seq<Block>, answers: seq<AddResult>)
    ensures Continues(AddLoop(b, todo, answers), b, todo, answers, 0)
  {
    assert todo[0..] == todo && answers[0..] == answers;
  }

  lemma ContinuesAtEnd(out: LoopOut, b: Builder, todo: seq<Block>, answers: seq<AddResult>, n: nat)
    requires n == |todo| && Continues(out, b, todo, answers, n)
    ensures out == LoopOut(b, n, true)
  {
  }

  /** The bytes of the `n` blocks at the cursor. */
  ghost function TakenBytes(blocks: seq<Block>, cursor: nat, n: nat): nat
    requires cursor + n <= |blocks|
  {
    DaSum(blocks[cursor..cursor + n])
  }

  lemma TakenNone(blocks: seq<Block>, cursor: nat)
    requires cursor <= |blocks|
    ensures TakenBytes(blocks, cursor, 0) == 0
  {
  }

  lemma TakenNext(blocks: seq<Block>, cursor: nat, n: nat)
    requires cursor + n < |blocks|
    ensures TakenBytes(blocks, cursor, n + 1) == TakenBytes(blocks, cursor, n) + blocks[cursor + n].daSize
  {
    assert blocks[cursor..cursor + n + 1] == blocks[cursor..cursor + n] + [blocks[cursor + n]];
    DaSumConcat(blocks[cursor..cursor + n], [blocks[cursor + n]]);
  }

  lemma {:induction false} IndexOfFirst<C>(queue: seq<C>, c: C, i: nat)
    requires i < |queue| && queue[i] == c && c !in queue[..i]
    ensures IndexOf(queue, c) == i
  {
    if i != 0 {
      assert queue[0] in queue[..i];
      assert queue[1..][i - 1] == c;
      assert queue[1..][..i - 1] == queue[1..i];
      assert forall x :: x in queue[1..i] ==> x in queue[..i];
      IndexOfFirst(queue[1..], c, i - 1);
    }
  }
}
