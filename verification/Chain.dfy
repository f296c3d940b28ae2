/**
 Sequence facts behind block conservation. `held` stands for the blocks of the
 queued channels, oldest first; `blocks` and `cursor` are the manager's block
 queue and its position.
 */
module Chains {
  import opened BatcherTypes

  /** `held` ends exactly at the block before the cursor, and continues without a gap into the queue. */
  ghost predicate Chained(held: seq<Block>, blocks: seq<Block>, cursor: nat) {
    && cursor <= |blocks|
    && cursor <= |held|
    && held[|held| - cursor..] == blocks[..cursor]
    && Consecutive(held + blocks[cursor..])
  }

  /** Positions and numbers determine each other, in both lists. */
  lemma ChainedNumbers(held: seq<Block>, blocks: seq<Block>, cursor: nat)
    requires Chained(held, blocks, cursor)
    ensures Consecutive(blocks) && Consecutive(held)
    ensures forall i :: 0 <= i < cursor ==> blocks[i] == held[|held| - cursor + i]
    ensures blocks != [] ==> forall j :: 0 <= j < |held| ==> held[j].number == blocks[0].number + j + cursor - |held|
  {
    var all := held + blocks[cursor..];
    forall i | 0 <= i < cursor
      ensures blocks[i] == held[|held| - cursor + i]
    {
      assert blocks[..cursor][i] == held[|held| - cursor..][i];
    }
    assert forall i :: 0 <= i < |blocks| ==> blocks[i] == all[|held| - cursor + i];
    assert forall j :: 0 <= j < |held| ==> held[j] == all[j];
  }

  lemma ChainedEnqueue(held: seq<Block>, blocks: seq<Block>, cursor: nat, b: Block)
    requires Chained(held, blocks, cursor)
    requires if blocks == [] then held == [] else b.number == blocks[|blocks| - 1].number + 1
    ensures Chained(held, blocks + [b], cursor)
  {
    ChainedNumbers(held, blocks, cursor);
    assert (blocks + [b])[..cursor] == blocks[..cursor];
    assert held + (blocks + [b])[cursor..] == held + blocks[cursor..] + [b];
    var all := held + blocks[cursor..];
    if blocks != [] {
      assert all != [];
      assert all[|all| - 1].number == blocks[|blocks| - 1].number;
    }
  }

  /** Moving blocks past the cursor into the newest channel neither breaks the chain nor repairs a broken one. */
  lemma ChainedAdvance(held: seq<Block>, blocks: seq<Block>, cursor: nat, n: nat)
    requires cursor + n <= |blocks|
    ensures Chained(held + blocks[cursor..cursor + n], blocks, cursor + n) <==> Chained(held, blocks, cursor)
  {
    hide Consecutive;
    var more := blocks[cursor..cursor + n];
    var held' := held + more;
    assert held' + blocks[cursor + n..] == held + blocks[cursor..];
    if cursor <= |held| {
      var end, end' := held[|held| - cursor..], held'[|held'| - (cursor + n)..];
      assert end' == end + more && blocks[..cursor + n] == blocks[..cursor] + more;
      assert end == end'[..cursor] && blocks[..cursor] == blocks[..cursor + n][..cursor];
    }
  }

  /** Dropping everything held from position `k` on, and rewinding to the block held there. */
  lemma ChainedRewind(held: seq<Block>, blocks: seq<Block>, cursor: nat, k: nat)
    requires Chained(held, blocks, cursor)
    requires k < |held| && blocks != [] && blocks[0].number <= held[k].number
    ensures var idx := held[k].number - blocks[0].number;
      idx < cursor && blocks[idx] == held[k] && k == |held| - cursor + idx && Chained(held[..k], blocks, idx)
  {
    ChainedNumbers(held, blocks, cursor);
    var idx := held[k].number - blocks[0].number;
    assert held[..k][k - idx..] == held[|held| - cursor..][..idx];
    assert blocks[..idx] == blocks[..cursor][..idx];
    assert held[..k] + blocks[idx..] == held + blocks[cursor..] by {
      assert blocks[idx..] == blocks[idx..cursor] + blocks[cursor..];
      assert blocks[idx..cursor] == blocks[..cursor][idx..];
      assert held[k..] == held[|held| - cursor..][idx..];
    }
  }

  /** Dropping held blocks without rewinding the cursor loses them. */
  lemma DroppingLoses(held: seq<Block>, blocks: seq<Block>, cursor: nat, k: nat)
    requires Chained(held, blocks, cursor) && 0 < cursor && k < |held|
    ensures !Chained(held[..k], blocks, cursor)
  {
    ChainedNumbers(held, blocks, cursor);
    if cursor <= k {
      assert held[..k][k - cursor..][cursor - 1].number == held[k - 1].number;
      assert blocks[..cursor][cursor - 1].number == held[|held| - 1].number;
    }
  }

  lemma ConsecutivePrefix(a: seq<Block>, b: seq<Block>)
    requires Consecutive(a + b)
    ensures Consecutive(a)
  {
    assert forall i :: 0 <= i < |a| ==> a[i] == (a + b)[i];
  }

  lemma ConsecutiveSuffix(bs: seq<Block>, k: nat)
    requires Consecutive(bs) && k <= |bs|
    ensures Consecutive(bs[k..])
  {
    forall i | 0 <= i < |bs[k..]|
      ensures bs[k..][i].number == bs[k..][0].number + i
    {
      assert bs[k..][i] == bs[k + i] && bs[k..][0] == bs[k];
    }
  }

  /** Pruning `n` safe blocks below the cursor, together with the `m` oldest held blocks, none of which is above them. */
  lemma ChainedPrune(held: seq<Block>, blocks: seq<Block>, cursor: nat, n: nat, m: nat)
    requires Chained(held, blocks, cursor) && n <= cursor && m <= |held| && blocks != []
    requires m == 0 || held[m - 1].number < blocks[0].number + n
    ensures Chained(held[m..], blocks[n..], cursor - n)
  {
    assert m <= |held| - (cursor - n) by {
      ChainedNumbers(held, blocks, cursor);
    }
    var all := held + blocks[cursor..];
    ConsecutiveSuffix(all, m);
    assert blocks[n..][cursor - n..] == blocks[cursor..];
    assert held[m..] + blocks[cursor..] == all[m..];
    assert held[m..][|held| - m - (cursor - n)..] == held[|held| - cursor..][n..];
    assert blocks[n..][..cursor - n] == blocks[..cursor][n..];
  }

  /** Pruning past the cursor, when every held block goes. */
  lemma ChainedPruneAll(held: seq<Block>, blocks: seq<Block>, cursor: nat, n: nat)
    requires Chained(held, blocks, cursor) && n <= |blocks|
    ensures Chained([], blocks[n..], 0)
  {
    ChainedNumbers(held, blocks, cursor);
    ConsecutiveSuffix(blocks, n);
    assert [] + blocks[n..][0..] == blocks[n..];
  }
}
