# Verified model of the batcher, the alt-DA tracker and the pre-image oracle

Three stateful parts of the OP Stack services, modelled in Dafny. The main results are about whole runs: every sequence of
operations that respects a stated discipline of the outside world. Where a run of the code breaks a promise, the condition
under which it does not is proved exact, and a run that breaks it is given; see "What the code does not promise".

**The batcher's submission state machine** (`op-batcher`). L2 blocks wait in a queue with a cursor; channels take blocks
from the cursor on, turn them into frames, and hand the frames out in transactions. Failures rewind cursors, time-outs
and DA-type switches drop channels, the safe head prunes both queues, a reorg clears everything. Proved for every run of a
fresh manager in which no channel is invalidated that is unsafe to invalidate: no block is lost or in two channels, the
transaction index agrees with the channels, full submission means every frame is confirmed, and the throttle's byte
counter never undercounts. It is exact as long as no prune passes the cursor.

**The alt-DA challenge tracker** (`op-alt-da`). Two L1 origins drive four queues and a map of challenges. Proved for every
run under the challenge contract's discipline: the status of every challenge is a simple function of the L1 event log, a
commitment forces at most one reorg until its challenge is pruned or L1 reorganises, waiting for missing data ends, and
inputs match their commitments. Proved for every run that resets promptly: a commitment dropped as final was unchallenged
or resolved if and only if no unresolved challenge against it had been pruned, and the care that prevents this is exact for
each operation. What is reported is the commitment's L1 block, which may hold other commitments that are still open; when it
does not is proved exactly too.

**The pre-image oracle and its hints** (`op-preimage`). Two peers over byte streams. Proved for every interleaving and
every fragmentation of reads and writes, for messages whose length fits its prefix: requests and answers arrive unchanged
and in order, and every schedule ends.

For each operation of the batcher and the tracker it is also proved which answer it gives, and that it changes no more than
it must: rewinds are minimal, the oldest ready channel is served first, every answer is characterised by its inputs.

Smaller results: the sync tick, the txpool state machine under interleaving, the string keys, the DA-type choice.

## How it is built

Each component has a value layer and, where the source updates objects in place, a class layer.

- *Value layer.* The state is a datatype, each operation a function on it, and the results are lemmas: one step keeps the
  invariant, a run is a sequence of steps, every run keeps it. Files `Channel*.dfy`, `Manager*.dfy`, `SyncActions.dfy`,
  `Da*.dfy`, `Duplex.dfy`, `Txpool.dfy`.
- *Class layer.* `ChannelObjects.dfy`, `ManagerObject.dfy`, `DriverObject.dfy`, `DaObjects.dfy`, `DaManagerObject.dfy`, and
  the classes in `Preimage.dfy` and `DaChoice.dfy` hold the mutable fields, shared channel and challenge objects, and the
  loops. Every method is proved to take its object's value exactly to what the operation's function gives, so the run
  theorems apply to the objects. A panic of the source is `None` in the value layer.

Channels are compared by identity, as in the source: the value layer is generic in the identity type, which the class
layer instantiates with the objects themselves.

## What the code does not promise

Where a promised property is false of the code, the exact condition under which it holds is proved, with a run that
violates it.

- *Invalidating a channel without blocks loses blocks.* `handleChannelInvalidated` rewinds the block cursor only if the
  channel has a block, but drops every newer channel regardless. Their blocks stay below the cursor and in no channel. It is
  reached by a time-out and by a switch of the DA type. Exact: `ManagerRuns.SafeInvalidation`, and for the two callers
  `ManagerRuns.TxConfirmedExact` and `ManagerRuns.TxDataExact`. Run: `ManagerLoss`, a switch after a blockless channel's
  transaction failed.
- *Invalidating a channel after pruning panics.* `rewindToBlock` needs the channel's first block in the queue. A channel that
  is only partly pruned, or was pruned while a transaction was pending, panics. Exact: `ManagerInvalidate.InvalidatePanics`.
  Run: `ManagerPanic.PanicIsReachable` and `ManagerPanic.ConfirmationPanics`.
- *Pruning past the cursor leaves bytes counted.* Blocks that turn safe before they were put in a channel stay in
  `pendingDABytes` until the next clear. Exact amount: `ManagerSync.SyncKeeps`. Run: `ManagerPanic.ExcessIsReachable` and
  `ManagerPanic.ExcessBytes`.
- *Finalization can forget an open case.* Commitments expire in queue order, so one with a late challenge at the head holds
  back others whose challenges have expired. If those challenges are pruned first, the reorg they call for never happens and
  the commitment is dropped as final. Exact: `DaFinality.FinalizationExact` over whole runs, `DaCare.FinalizeExact` for the
  finalization that forgets. Run: `DaMissedReorg`.
- *A commitment read after its unresolved challenge was pruned is taken as unchallenged.* After the reorg its expired
  challenge asked for, finalization may prune that challenge while derivation is still behind; the next read then returns
  data, and the commitment is dropped as final. Exact: `DaCare.ReadExact`. Run: `DaStaleRead`, in which every finalization is
  careful. In both cases no later run settles the commitment: `DaFinality.ForgottenForever`.
- *A block is reported as final with a commitment in it still under challenge.* Dropping a commitment reports its L1 block,
  and the node finalizes all that was derived up to that block. Another commitment of the block may be challenged late and
  force a reorg of it. Exact: `DaFinalBlock.BlockFinalExact`; with one commitment per block it cannot happen
  (`DaFinalBlock.OnePerBlockFinal`). Run: `DaSharedBlock`, every step of which is careful.
- *The finalized head can go back.* With nothing tracked, an advance reports the L1 block one challenge window before the
  finalized one; the next finalization replaces it by the block of the last commitment dropped, however old. Exact, for
  commitments recorded in the order of their blocks: `DaFinalBlock.HeadStaysExact`. Run: `DaFinalBlock.HeadGoesBack`.
- *A deadline of 0 means none.* `updateTimeout` reads 0 as unset, so a limit of 0 erases the earlier ones. Exact:
  `ChannelRuns.SettleIsLeast`. Run: `ChannelRuns.DeadlineForgotten`.
- *Challenge keys of generic commitments collide* across lengths. Exact: `Keys.ChallengeKeyExact`. Pairs for every difference
  in length: `Keys.ChallengeKeysCollide`. For one length, hence for all Keccak commitments, the keys are faithful, and in
  generic mode no challenge is ever stored (`DaRuns.GenericStoresNothing`), so the colliding keys do not meet in the map.
- *A hint of 4 GiB or more is delivered cut short*, since its length is cut to 32 bits. Exact: `Preimage.HintValid`,
  `Preimage.FirstHintExact`. Run: `Preimage.HintCutShort`.

One place where the documentation says something else: `op-batcher/readme.md` has the channel queue cleared when a channel
times out, while the code drops that channel and the newer ones and keeps the older. The model follows the code.

## Assumptions

- Channel ids are distinct and new channel objects are new; a channel's pipeline emits at most 2^16 frames (frame numbers
  have 16 bits).
- No block hash is zero, and a block's number is its parent's plus one.
- The challenge contract accepts one challenge per commitment and block, inside the challenge window, and a resolution up to
  the end of the resolve window. Skipping L1 blocks is allowed.
- A reset that follows a reorg request goes to an L1 block at or before the challenge origin; with a later base the two
  origins would change order.
- For finality: the reset follows the reorg request at once, and L1 finality does not go back. The further care, that no
  unresolved challenge of an active commitment is pruned and that no commitment with such a challenge behind it is recorded,
  is not assumed of the code: it is the exact condition `DaCare.CareIsExact`.
- The DA storage client returns only inputs that match the commitment.
- Each transaction sent produces one receipt.

## Model

| member | source | states |
|---|---|---|
| ManagerRuns.EveryRun | op-batcher/readme.md:95-110 | For every run of a fresh manager made of allowed operations, those that keep the outside discipline and invalidate no channel that is unsafe to invalidate: each queued block below the cursor is in exactly one queued channel at one position and no other block is in any; index and channels agree on what is pending, both ways; full submission means every frame confirmed; the byte counter never undercounts, and is exact if no prune passes the cursor |
| ManagerRuns.StepKeeps | op-batcher/batcher/channel_manager.go:78-519 | Every operation, under the outside world's discipline and the exact invalidation condition, does not panic and keeps the whole invariant and the counter's bounds |
| ManagerRuns.RunKeeps | op-batcher/readme.md:29-33 | The invariant and the counter's bounds hold along every run of allowed operations from any state that satisfies them |
| ManagerRuns.SafeInvalidation | op-batcher/batcher/channel_manager.go:131-199 | Invalidating a channel neither panics nor breaks the invariant if and only if its first block is still queued, or it has no blocks and no dropped channel has any |
| ManagerRuns.TxConfirmedExact | op-batcher/batcher/channel_manager.go:111-125 | A confirmation keeps the invariant if and only if it does not time its channel out or invalidating that channel is safe; the counter's excess never changes |
| ManagerRuns.TxDataExact | op-batcher/batcher/channel_manager.go:228-268 | Getting the next transaction neither panics nor breaks the invariant if and only if it does not switch the DA type, or the channel thrown away for the switch is safe to invalidate; building afterwards repairs nothing |
| ManagerAnswers.TxAnswerExact | op-batcher/batcher/channel_manager.go:203-268 | The answer is a transaction if and only if a channel hands out frames; then they are the next frames of the oldest ready channel, a whole transaction's or all that are left, in that channel's DA type, pending there and indexed to it. It is an error if and only if building failed, a panic if and only if the requeueing panics, and otherwise no queued channel has anything to send. After a switch the transaction is of the new DA type |
| ManagerAnswers.SwitchesExact | op-batcher/batcher/channel_manager.go:228-255 | The DA type is switched if and only if it differs, building did not fail, and the oldest ready channel has nothing pending or confirmed |
| ManagerAnswers.GetReadyExact | op-batcher/batcher/channel_manager.go:276-321 | The channel answered ready is the oldest queued one with something to send; otherwise none has any, or building failed, which is characterised by what the factory and the pipeline answer |
| ManagerAnswers.AddLoopExact | op-batcher/batcher/channel_manager.go:375-423 | The loop takes all blocks up to the first that is not simply accepted, that one too if it is accepted as the last, and fails if and only if that one breaks the pipeline |
| ManagerAnswers.FillFullExact | op-batcher/batcher/channel_manager.go:297-321 | After filling, a channel is full if and only if the pipeline is, the L1 head has reached its deadline, or its frame numbers are used up |
| ManagerAnswers.NextTxExact | op-batcher/batcher/channel_manager.go:203-217 | Handing out moves one channel's cursor over exactly the frames handed out; the last submitted L1 origin becomes the greatest seen |
| ManagerAnswers.NewIsCurrent | op-batcher/batcher/channel_manager.go:326-361 | A new channel has the configuration of the moment and a deadline counted from the last submitted L1 origin |
| ManagerEffects.InvalidateLeast | op-batcher/batcher/channel_manager.go:131-199 | Invalidation rewinds to the channel's own first block and no further, keeps every older channel with its transactions, and drops the others with theirs |
| ManagerEffects.FailedExact | op-batcher/batcher/channel_manager.go:99-107 | A failure rewinds the frame cursor of its channel by the least amount that sends all its frames again, and changes nothing else but pending set and index |
| ManagerEffects.ConfirmedExact | op-batcher/batcher/channel_manager.go:111-125 | A confirmation moves the transaction from pending to confirmed and out of the index, and invalidates if and only if the channel is then timed out |
| ManagerEffects.AddExact | op-batcher/batcher/channel_manager.go:468-478 | A block is accepted if and only if it extends the newest block, or none is known |
| ManagerEffects.ClearedIsFresh | op-batcher/batcher/channel_manager.go:78-91 | A cleared manager is a fresh one with the given L1 origin |
| ManagerInvariant.BlockOwnedOnce | op-batcher/readme.md:29-33 | Conservation read off the invariant: a queued block is in a channel exactly when it is below the cursor, and then at one place only |
| ManagerInvalidate.InvalidatePanics | op-batcher/batcher/channel_manager.go:131-148 | Invalidation panics if and only if the channel has blocks and the first is below the first block not pruned |
| ManagerInvalidate.InvalidateExact | op-batcher/batcher/channel_manager.go:154-199 | A completed invalidation keeps conservation if and only if the channel has a block or no dropped channel does; rewound blocks count as pending again, exactly |
| ManagerLoss.LossIsReachable | op-batcher/batcher/channel_manager.go:99-107 | With a channel timeout of 50, a fresh manager reaches by allowed steps a state where a blockless channel with nothing submitted is before one that holds a block |
| ManagerLoss.BlockLost | op-batcher/batcher/channel_manager.go:154-174 | From there a switch of the DA type leaves a queued block below the cursor and in no channel |
| ManagerPanic.PanicIsReachable | op-batcher/batcher/channel_manager.go:494-519 | A fresh manager reaches by allowed steps a state where a channel was pruned while one of its transactions was pending |
| ManagerPanic.ConfirmationPanics | op-batcher/batcher/channel_manager.go:131-148 | The confirmation of that transaction, one channel timeout after the first, panics |
| ManagerPanic.ExcessIsReachable | op-batcher/batcher/driver.go:420-445 | A fresh manager reaches by allowed steps a state where a block was pruned before it was put in a channel |
| ManagerPanic.ExcessBytes | op-batcher/batcher/channel_manager.go:494-503 | There no block is queued and that block's bytes are counted as pending |
| ManagerSteps.AddL2BlockKeeps | op-batcher/batcher/channel_manager.go:468-478 | Adding a block that extends the tip keeps the chain without a gap and all of the invariant |
| ManagerSteps.TxFailedStep | op-batcher/batcher/channel_manager.go:99-107 | A failure never panics, and index and channel forget the transaction together |
| ManagerSteps.RecordedKeeps | op-batcher/batcher/channel_manager.go:111-119 | Recording a confirmation keeps the invariant |
| ManagerSteps.ClearKeeps | op-batcher/batcher/channel_manager.go:78-91 | Clearing yields a valid empty state with an exact counter |
| ManagerBuild.EnsureKeeps | op-batcher/batcher/channel_manager.go:326-361 | Opening a channel keeps the invariant and leaves a current channel with space |
| ManagerBuild.AddLoopAppends | op-batcher/batcher/channel_manager.go:375-423 | Whatever the pipeline answers, the channel gains exactly a prefix of the waiting blocks and no frame changes |
| ManagerBuild.ProcessKeeps | op-batcher/batcher/channel_manager.go:375-423 | Filling a channel keeps conservation and the counter, also when the pipeline breaks midway |
| ManagerBuild.GetReadyKeeps | op-batcher/batcher/channel_manager.go:276-321 | Finding or building a ready channel keeps the invariant, and the channel found is queued |
| ManagerBuild.GetReadyConserves | op-batcher/batcher/channel_manager.go:276-321 | Whatever is created, filled and emitted, conservation holds afterwards if and only if it held before |
| ManagerBuild.NextTxKeeps | op-batcher/batcher/channel_manager.go:203-217 | Handing out a transaction keeps the index exact: its id is new to every other channel |
| ManagerSync.SyncKeeps | op-batcher/batcher/driver.go:420-445 | A tick never panics and keeps the invariant; the counter's excess grows by exactly the blocks pruned past the cursor |
| ManagerSync.PruneKeeps | op-batcher/batcher/channel_manager.go:494-519 | Pruning blocks and channels by one safe head keeps the invariant, although clamping the cursor alone would not |
| ManagerSync.UnsafeChannelsKept | op-batcher/batcher/sync_actions.go:161-170 | A channel that holds a block above the safe head is never pruned |
| ManagerSync.TickLeavesUnsafeBlocks | op-batcher/batcher/driver.go:420-445 | After a tick and its load the queue holds exactly the numbers from safe + 1 to the later of the unsafe head and the newest kept block |
| ManagerSync.TickClearsExact | op-batcher/batcher/sync_actions.go:100-161 | In sync and with blocks queued, a tick starts afresh, from the safe head's L1 origin, if and only if the safe head is off the queue, differs by hash from the queued block in its place, or has passed by a channel that is fully submitted, not timed out, included below the current L1 block, and ends above it |
| ManagerSync.TickKeepsCurrent | op-batcher/batcher/channel_manager.go:506-519 | A tick that prunes leaves the current channel current if and only if it stays queued, and settings, index and channels as they are |
| SyncActions.SyncTickExact | op-batcher/batcher/sync_actions.go:50-184 | The same of the computed actions for any consecutive queue and any channels; prune counts never exceed the queues |
| SyncActions.ClearsExact | op-batcher/batcher/sync_actions.go:50-161 | The same three cases for the computed actions over any consecutive queue and any channel statuses, and when the sequencer counts as out of sync |
| Chains.DroppingLoses | op-batcher/batcher/channel_manager.go:154-174 | Dropping held blocks without moving the cursor always breaks the chain |
| ChannelRuns.FramesCovered | op-batcher/batcher/channel.go:49-155 | In every run of a channel each frame below the cursor is in a pending or confirmed transaction, and full submission means all frames are confirmed |
| ChannelRuns.DoKeeps | op-batcher/batcher/channel.go:49-155 | Every operation keeps coverage, and rewinding to a failed transaction never panics |
| ChannelRuns.SettleIsLeast | op-batcher/batcher/channel_builder.go:259-264 | Keeping the earlier limit yields the least of all limits if and only if no limit is 0, except possibly the last |
| ChannelRuns.DeadlineIsLeast | op-batcher/batcher/channel_builder.go:224-264 | Over any run the deadline is the least of all duration, sequencing-window and channel-timeout limits met, under that exact condition |
| ChannelRuns.ClosesExactly | op-batcher/batcher/channel_builder.go:266-280 | An L1 head closes an open channel if and only if it has reached one of the limits met, with the reason of the least |
| ChannelRuns.LimitsLeaveMargin | op-batcher/batcher/channel_builder.go:224-252 | Where nothing wraps, the window and timeout limits leave the safety margin and the duration limit none |
| ChannelRuns.TimedOutExact | op-batcher/batcher/channel.go:66-112 | Over any run a channel counts as timed out if and only if two of its transactions were included a channel timeout apart |
| ChannelRuns.OutputFramesExact | op-batcher/batcher/channel_builder.go:316-388 | A full channel is closed once and refuses the next time; frames are appended in order, and the channel is full in addition if and only if its frame numbers are used up |
| ChannelRuns.DeadlineForgotten | op-batcher/batcher/channel_builder.go:249-264 | A first block whose window limit is 0 leaves a new channel, which had a duration limit, without any: no L1 head closes it |
| ChannelRuns.LimitReachedStaysFull | op-batcher/batcher/channel_builder.go:266-306 | Once the L1 head reaches one of the limits the channel is full for every later run and its blocks never change |
| ChannelBuilders.OutputAllAppends | op-batcher/batcher/channel_builder.go:316-388 | Emitting frames appends them, numbered by position, and touches nothing else but fullness |
| Channels.PendingCanFail | op-batcher/batcher/channel_builder.go:430-442 | The frame a pending transaction starts with is in the queue at its number: the rewind check passes |
| Channels.TxFailedExact | op-batcher/batcher/channel_builder.go:430-442 | The new cursor is the greatest, not above the old one, that leaves all frames of the failed transaction to be sent |
| Channels.TxConfirmedKeeps | op-batcher/batcher/channel.go:66-97 | Confirming keeps coverage, with overlapping transactions re-sent or not |
| Channels.FullySubmittedMeansConfirmed | op-batcher/batcher/channel.go:115-117 | A fully submitted channel has every frame it created inside a confirmed transaction |
| Channels.FullySubmittedExact | op-batcher/batcher/channel.go:115-117 | Fully submitted if and only if full, every frame handed out, and nothing pending |
| ChannelObjects.ChannelBuilder.OutputFrames | op-batcher/batcher/channel_builder.go:316-357 | The emitting loop, in place, computes the specified builder and outcome |
| ChannelObjects.ChannelBuilder.AddBlock | op-batcher/batcher/channel_builder.go:174-215 | In place: block, deadline, newest origin and number, and fullness change together as specified, or nothing does |
| ChannelObjects.Channel.NextTxData | op-batcher/batcher/channel.go:133-146 | The loop takes exactly the frames from the cursor on, up to the transaction's size, and registers them |
| ChannelObjects.Channel.TxConfirmed | op-batcher/batcher/channel.go:66-97 | In place: the specified channel, and whether it is now timed out |
| ManagerObject.ChannelManager.RewindToBlock | op-batcher/batcher/channel_manager.go:131-148 | The loop returns exactly the bytes of the blocks between the new and the old cursor |
| ManagerObject.ChannelManager.HandleChannelInvalidated | op-batcher/batcher/channel_manager.go:154-199 | The scan and the loops over the index compute the specified state; no other channel object changes |
| ManagerObject.ChannelManager.AddBlocks | op-batcher/batcher/channel_manager.go:375-416 | The loop adds what the recursive specification adds, block by block, and uncounts exactly those blocks' bytes |
| ManagerObject.ChannelManager.GetReadyChannel | op-batcher/batcher/channel_manager.go:276-321 | The object reaches the specified state and outcome, with a freshly allocated channel when one is needed |
| ManagerObject.ChannelManager.TxData | op-batcher/batcher/channel_manager.go:228-268 | The object reaches the specified state and transaction, and panics exactly when the specification does |
| ManagerObject.ChannelManager.TxConfirmed | op-batcher/batcher/channel_manager.go:111-125 | The object reaches the specified state, with the shared channel object updated once |
| ManagerObject.ChannelManager.PruneChannels | op-batcher/batcher/channel_manager.go:506-519 | The queue loses its head and the current channel is unset exactly when it was pruned |
| DriverObject.BatchSubmitter.SyncAndPrune | op-batcher/batcher/driver.go:420-445 | The object reaches the specified state without panic; the remembered L1 block moves only when in sync |
| DaRuns.EveryRun | op-alt-da/dastate.go:97-207 | In every run the tracked status of every commitment and block is the one the event log gives: none, resolved in time (the last window block included), expired, or active; the challenge origin is never behind the commitment origin; both queues together stay sorted by window end |
| DaRuns.StepKeeps | op-alt-da/damgr.go:141-327 | Every operation of the manager keeps the agreement of tracker and log |
| DaRuns.ExpireCommitmentsOnly | op-alt-da/dastate.go:153-182 | Expiry leaves expired ++ active unchanged as a sequence |
| DaRuns.GenericStoresNothing | op-alt-da/damgr.go:397-403 | In generic mode no run ever stores a challenge |
| DaLog.StatusMatchesLog | op-alt-da/dastate.go:136-142 | The status looked up equals the status read off the log |
| DaLogSteps.LoadStep | op-alt-da/damgr.go:330-394 | A block's events in order keep tracker and log in agreement |
| DaLogSteps.ScanFindsAll | op-alt-da/dastate.go:188-207 | A scan that stops at the first survivor finds exactly all challenges past the bound |
| DaLogSteps.ExpireEffect | op-alt-da/dastate.go:188-207 | Expiry closes exactly the challenges whose window is over, keeps the order of both queues, and spares resolved ones |
| DaLogSteps.PruneEffect | op-alt-da/dastate.go:210-258 | Pruning removes exactly the closed challenges past the bound, from queue and map |
| DaReorg.ReorgMeansExpired | op-alt-da/damgr.go:285-327 | Whenever a reorg is asked for, some expiring commitment is unresolved, and the challenge of every such one is already expired |
| DaReorg.ResetQuarantines | op-alt-da/damgr.go:172-189 | The reset that follows leaves each such commitment expired and untracked |
| DaReorg.OneReorgPerCommitment | op-alt-da/damgr.go:172-207 | In every later run, until a prune or an L1 reorg reaches it, it stays expired and is never tracked again |
| DaReorg.ReadQuarantined | op-alt-da/damgr.go:193-207 | Each read of it answers that its challenge expired and changes nothing |
| DaReorg.ReorgHappensOnce | op-alt-da/damgr.go:172-327 | From the advance that asks for a reorg, through the reset, to any later run that spares the challenge: each commitment that asked for it is untracked and every read of it answers that its challenge expired |
| DaReorg.AdvanceExact | op-alt-da/damgr.go:263-327 | Which answer an advance gives, a reorg being asked for if and only if a due commitment is unresolved, and where it leaves both origins, the resetting flag and the head |
| DaReorg.ResetExact | op-alt-da/damgr.go:172-189 | A reset for an L1 reorg is a fresh manager at the base; one that follows a reorg request forgets the commitments only |
| DaFinality.FinalizationExact | op-alt-da/damgr.go:117-122 | In every run that resets promptly, each commitment a finalization drops was by the log never challenged or resolved, with its window over in a finalized and processed block, if and only if no unresolved challenge against it was pruned |
| DaFinality.StepPrompt | op-alt-da/damgr.go:141-327 | Every prompt operation keeps: a commitment that expired without a reorg is settled or an unresolved challenge against it was pruned |
| DaFinality.HeadReported | op-alt-da/dastate.go:210-241 | The block reported is that of the last commitment dropped, now or earlier |
| DaFinality.ForgottenForever | op-alt-da/damgr.go:330-394 | Once an unresolved challenge is pruned, no later run short of an L1 reorg settles the commitment, at any block |
| DaCare.FinalizationSafe | op-alt-da/damgr.go:117-122 | In every careful run all commitments a finalization drops are settled |
| DaCare.CareIsExact | op-alt-da/damgr.go:141-260 | A prompt operation leaves no tracked commitment with an unresolved challenge pruned if and only if it prunes none such and records none such |
| DaCare.ReadExact | op-alt-da/damgr.go:193-212 | A read keeps this if and only if it records nothing, or no unresolved challenge against the commitment was pruned; a pruned resolved challenge does no harm |
| DaCare.FinalizeExact | op-alt-da/damgr.go:117-122 | A finalization keeps this if and only if each active commitment's challenge is resolved, open, or ends later |
| DaFinality.ExpiredSettledExact | op-alt-da/dastate.go:153-182 | A commitment that expires without asking for a reorg is settled if and only if no unresolved challenge against it was pruned |
| DaCare.PruneActiveExact | op-alt-da/dastate.go:210-258 | Finalizing keeps the challenge of every active commitment, resolved or not, if and only if none of those challenges is both closed and past |
| DaFinalBlock.BlockFinalExact | op-alt-da/damgr.go:117-122 | In every careful run all tracked commitments up to the block a finalization reports are settled if and only if those left in a queue up to that block read as settled in the tracker: challenge resolved or none, window over |
| DaFinalBlock.OnePerBlockFinal | op-alt-da/damgr.go:117-122 | With at most one commitment per block, a finalization that drops any reports a block up to which all are settled |
| DaFinalBlock.AgedHeadExact | op-alt-da/damgr.go:311-327 | When an advance reports a head, any commitment up to it, tracked or not, is settled if and only if no unresolved challenge against it was pruned and, if it was never challenged, its window is over in the last block processed |
| DaFinalBlock.HeadStaysExact | op-alt-da/damgr.go:117-140 | A finalization does not move the head back if and only if it drops a commitment at or after it or, dropping none, dropped one before |
| DaFinalBlock.HeadGoesBack | op-alt-da/damgr.go:311-327 | A careful run of a fresh manager reports block 10, and its next finalization block 0 |
| DaMissedReorg.MissIsReachable | op-alt-da/dastate.go:153-169 | For any two valid commitments and any hash that opens them, a fresh manager promptly reaches a state where an active commitment's expired challenge was pruned |
| DaMissedReorg.ReorgMissed | op-alt-da/dastate.go:153-182 | The next block then asks for no reorg, and the commitment is on its way to finality though its challenge was never resolved |
| DaStaleRead.StaleReadIsReachable | op-alt-da/damgr.go:141-189 | For any valid commitment a careful run of a fresh manager reaches a state where its expired challenge was pruned after its reorg |
| DaStaleRead.StepsArePrompt | op-alt-da/damgr.go:141-207 | The read, the block and the finalization that follow respect the contract, reset promptly and prune no unresolved challenge of an active commitment |
| DaStaleRead.StaleReadFinalizes | op-alt-da/damgr.go:193-212 | The read returns data, no reorg follows, and the commitment is reported final though by the log it is never settled |
| DaSharedBlock.OpenBlockIsReachable | op-alt-da/dastate.go:210-241 | For any two valid commitments in one block a careful run of a fresh manager ends in reporting that block as final |
| DaSharedBlock.OpenBlockReported | op-alt-da/damgr.go:117-122 | There one of the two is in the reported block, under an open challenge, and not settled at any block |
| DaSharedBlock.OpenBlockUnsettled | op-alt-da/damgr.go:117-122 | So that finalization reported a block that was not settled |
| DaSharedBlock.FinalBlockReorged | op-alt-da/damgr.go:285-305 | The end of its window then asks for a reorg of the block already reported |
| DaReads.PendingUsesSlack | op-alt-da/damgr.go:210-241 | Each pending answer uses up exactly one block of a slack that was positive |
| DaReads.StallIsBounded | op-alt-da/damgr.go:162-169 | Any run without an L1 reorg answers "pending" for one inclusion block at most as often as there was slack |
| DaReads.StallEnds | op-alt-da/damgr.go:193-260 | With no slack left, a read of missing data answers that the challenge expired, the data is missing for good, or the resolved input |
| DaReads.AnswerExact | op-alt-da/damgr.go:193-260 | Each answer of a read, if and only if, from the status the event log gives and what storage and L1 return |
| DaReads.ReadSound | op-alt-da/damgr.go:193-260 | Every input returned for a Keccak commitment hashes to it, from storage or from a resolution |
| DaObjects.State.ExpireChallenges | op-alt-da/dastate.go:188-207 | The popping loop over shared challenge objects computes the closed form |
| DaObjects.State.ExpireCommitments | op-alt-da/dastate.go:153-182 | The popping loop computes the closed form, and asks for a reorg exactly when an expiring commitment is unresolved |
| DaObjects.State.PruneCommitments | op-alt-da/dastate.go:218-241 | The popping loop drops exactly the due prefix and remembers its last commitment |
| DaObjects.State.PruneChallenges | op-alt-da/dastate.go:245-258 | The popping loop drops exactly the due prefix and its map entries |
| DaManagerObject.DA.LoadChallengeEvents | op-alt-da/damgr.go:330-394 | The event loop, in place, computes the fold over the events |
| DaManagerObject.DA.AdvanceL1Origin | op-alt-da/damgr.go:311-327 | The object reaches the specified state and answer, stopping at the first error |
| DaManagerObject.DA.GetInput | op-alt-da/damgr.go:193-260 | The object reaches the specified state and answer in every branch |
| Commitments.DecodeEncode | op-alt-da/commitment.go:73-155 | Decoding inverts encoding on exactly the valid commitments and accepts nothing else |
| Duplex.MoveKeeps | op-preimage/oracle.go:22-74 | Any single read or write of any size keeps every message whole across its writer, the stream and its reader |
| Duplex.EveryInterleaving | op-preimage/oracle.go:22-74 | For every schedule and fragmentation requests arrive in order and unchanged, the k-th result is the answer to the k-th request, and both streams are empty between requests |
| Duplex.NoDeadlock | op-preimage/oracle.go:22-74 | Until all requests are answered or the server gave up, some peer can move |
| Duplex.EveryScheduleEnds | op-preimage/oracle.go:22-74 | No schedule is longer than one move to begin each request and two for each byte, and one that cannot go on has answered every request or the server gave up |
| Duplex.AbandonedForCause | op-preimage/oracle.go:51-74 | A server stops only after refusing a request or after an answer it meant to be the last |
| Framing.BigEndianRoundTrip | op-preimage/oracle.go:28-33 | Reading back a written length gives it modulo the field's range |
| Framing.DigitAt | op-preimage/oracle.go:28-33 | The most significant byte of a length is written first |
| Framing.PrefixWhole | op-preimage/hints.go:21-34 | A length-prefixed value is read back as one message if and only if its length fits the prefix |
| Preimage.OracleCorrect | op-preimage/oracle.go:22-74 | The k-th Get returns exactly the server's pre-image of the k-th key, for every schedule |
| Preimage.OracleCompletes | op-preimage/oracle.go:22-74 | A schedule that cannot go on has answered every Get, or the server has no pre-image for the next key |
| Preimage.HintValid | op-preimage/hints.go:21-34 | Hints are framed soundly if and only if each is shorter than 2^32 bytes |
| Preimage.HintsCorrect | op-preimage/hints.go:21-71 | Each hint reaches the handler byte for byte and gets exactly one acknowledgement, also when handling fails |
| Preimage.HintsComplete | op-preimage/hints.go:21-71 | A schedule that cannot go on has handled every hint, or stopped after one whose handling failed |
| Preimage.HintCutShort | op-preimage/hints.go:21-71 | For every hint of 2^32 bytes or more some schedule delivers it cut to its length modulo 2^32 |
| Preimage.FirstHintExact | op-preimage/hints.go:21-71 | The first hint arrives unchanged under every schedule if and only if it is shorter than 2^32 bytes |
| Preimage.Pipe.ReadFull | op-preimage/oracle.go:51-58 | However the reads fall, exactly the bytes asked for are taken, with the two end-of-stream errors told apart |
| Preimage.NextPreimageRequest | op-preimage/oracle.go:51-74 | One request: which error, and exactly the prefixed pre-image written or nothing |
| Preimage.NextHint | op-preimage/hints.go:48-71 | One hint: read whole, acknowledged once whether or not handling fails, nothing written on a broken stream |
| Keys.TxKeyInjective | op-batcher/batcher/tx_data.go:77-104 | Two transactions with proper channel ids have the same string key if and only if they have the same frames |
| Keys.ChallengeKeyInjective | op-alt-da/dastate.go:44-46 | For commitments of one length the key determines commitment and block |
| Keys.ChallengeKeyExact | op-alt-da/dastate.go:44-46 | For commitments of any lengths two keys are equal if and only if the longer encoding ends in the shorter and its other bytes in hexadecimal are the further digits of the other's block number |
| Keys.ChallengeKeysCollide | op-alt-da/dastate.go:44-46 | Such pairs of generic commitments exist for every positive block number and every difference in length |
| Txpool.OneCancellation | op-batcher/batcher/driver.go:983-998 | Under every interleaving exactly one cancellation is outstanding while one is pending, and none otherwise |
| Txpool.TransitionsExact | op-batcher/batcher/driver.go:367-381 | Each of the three transitions happens by exactly one kind of step, and the kind of blocking transaction is that of the receipt that reported it |
| Txpool.DecisionsExact | op-batcher/batcher/driver.go:525-543 | What the receipts loop decides on a receipt, by the state it reads |
| Txpool.CancelsWhatBlocks | op-batcher/batcher/driver.go:983-998 | The cancellation about to be sent is of the kind that blocks the pool |
| Txpool.RoundTrip | op-batcher/batcher/driver.go:367-381 | From good through blocked and cancelling back to good is a possible run |
| Txpool.WriteNotStale | op-batcher/batcher/driver.go:525-543 | When the receipts loop writes the state it decided on by an unlocked read, that state has not changed |
| DaChoice.ChoiceIsCheapest | op-batcher/batcher/channel_config_provider.go:71-102 | Calldata is chosen exactly when a blob byte costs strictly more, as exact fractions |
| DaChoice.CostsPerByte | op-batcher/batcher/channel_config_provider.go:104-133 | 21000 gas a transaction, 16 gas a calldata byte or 40 by the floor of EIP-7623, 131072 blob gas a blob |
| DaChoice.BlobFeeMonotone | op-batcher/batcher/channel_config_provider.go:124-133 | A higher blob base fee never moves the choice to blobs |
| DaChoice.PectraKeepsBlobs | op-batcher/batcher/channel_config_provider.go:104-122 | Pectra's pricing never moves the choice from blobs to calldata |
| DaChoice.ScaleInvariant | op-batcher/batcher/channel_config_provider.go:71-133 | Scaling all prices alike does not change the choice |
| DaChoice.ConfigProvider.ChannelConfig | op-batcher/batcher/channel_config_provider.go:53-102 | The last choice is repeated when prices are unknown, and replaced otherwise |

## Left out

- The compression pipeline (`derive.ChannelOut`), RLP and span batches: each answer is a parameter of the model.
- RPC, HTTP, the transaction manager, contexts, tickers, goroutine plumbing, logging, and metrics other than `pendingDABytes`.
- The estimate of a block's DA size: given with the block. The counter is an unbounded integer, not 64 bits.
- ABI decoding of contract events, and the contract itself: the model takes decoded events and assumes the contract's discipline.
- The hash functions: a parameter.
- L1 block ids in the alt-DA manager's two origins and in channels are numbers; their hashes are not modelled.
- Fields used for logs only (oldest L1 origin and oldest L2 block of a channel), and closing a channel on shutdown.
- Transaction ids and challenge keys are structures, not strings; `Keys` proves the strings faithful to them, where they are.
- The client sides of the oracle and the hint writer exist as peers of the state machine in `Duplex`, not as methods on streams.
- The throttling loop, the driver's other loops, and the lock discipline other than the txpool's.
- Cannon, op-chain-ops, op-wheel, the devnets and configuration parsing.
- DaChoice.ChoiceIsCheapest: needs at least one blob per transaction, since a cost per byte of zero bytes is undefined.
- ManagerObject.ChannelManager.TxFailed: asks that the rewind check passes, because the source panics otherwise; `ManagerSteps.TxFailedStep` provides it in every reachable state.
