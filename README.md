# Solo block production, the VBFT pending-block store and NeoVM interop equality

A Dafny model of three parts of the Ontology blockchain node (Go), with proofs about them:

- **The VBFT chain store** (`consensus/vbft/chain_store.go`, module `ChainStore`). Blocks agreed by consensus wait in `pendingBlocks`, keyed by height. `AddBlock` executes them in height order from `chainedBlockNum + 1`. Each block is submitted to the ledger one height late: block h-1 is submitted just before block h is executed, and the entry at h-2 is then evicted. `ReloadFromLedger` moves the frontier up to the ledger height and drops the entries it passes. The store is a `class` with the source's fields. Its loop is proved against the pure function `Advance`, and the lemmas about `Advance` state the one-block lag, the order of submissions and the memory bound.
- **The solo consensus service** (`consensus/solo/solo.go`, module `Solo`). On each timer tick the single producer:
  - restricts the transaction pool with the increment validator (a duplicate check over recently committed heights);
  - builds and signs a block;
  - refuses a block whose parent shard height is below the stored one;
  - has the ledger execute and submit the block;
  - sends the block's cross-shard messages, one signed envelope per destination shard;
  - records the block's parent height.

  `SoloService` is a class. `makeBlock`, `genBlock` and `broadCrossShardHashMsgs` are methods proved against the pure functions `Make`, `Gen` and `Dispatch`. The mailbox handler `Receive` is a method with one postcondition per message kind.
- **The increment validator** (module `Increment`). The service only calls it. Its implementation is not part of this model, so the module models the contract those calls rely on: a window of at most `maxBlocks` consecutive heights with their transaction hashes.
- **NeoVM interop values** (`vm/neovm/types/interop_value.go`, module `Interop`). `Equals` is false whenever either side is nil, even for two nils. Otherwise it compares the byte renderings.

The ledger, the transaction pool, signing, hashing and merkle roots are collaborators. Each is a datatype of functions (`ChainStore.Ledger`, `Solo.Ledger`, `Solo.Crypto`, `Solo.Env`) passed in as a parameter. A ghost field `calls` of `ChainStore` records the ledger calls and completion notices in order.

Go's unspecified map iteration order in `broadCrossShardHashMsgs` is modelled by nondeterministic choice. `SignGroups` picks the next shard with `:|` and returns the visiting order as a ghost value. `Broadcasts` says the broadcasts are the dispatch for *some* ordering of the groups. `DispatchShape` and `DispatchDelivers` hold for every ordering.

Heights are `nat`; see "Left out" for the 32-bit arithmetic.

The specification functions carry no contracts of their own. The lemmas and method rows below state what they mean:

- `ChainStore.Reload` is `ReloadFromLedger` (consensus/vbft/chain_store.go:103-118).
- `ChainStore.AddSpec` is `AddBlock` (consensus/vbft/chain_store.go:120-179).
- `ChainStore.Advance` is its loop (consensus/vbft/chain_store.go:136-176), one `Step` per pass.
- `Solo.Make` is `makeBlock` (consensus/solo/solo.go:260-337).
- `Solo.Unsigned` is the header and block it assembles before signing (consensus/solo/solo.go:295-335).
- `Solo.Dispatch` is `broadCrossShardHashMsgs` for one visiting order of the shards (consensus/solo/solo.go:196-258).

## Model

| member | source | states |
|---|---|---|
| ChainStore.SetResult | consensus/vbft/chain_store.go:95-101 | `SetExecuteResult` replaces the result of a non-nil entry and otherwise leaves the map unchanged; the key set never changes |
| ChainStore.Step | consensus/vbft/chain_store.go:136-176 | One loop pass stops exactly at a gap, or when a submission is owed and the entry below is missing. When it continues, the frontier moves up by one, a submission becomes owed, and the calls are submit h-1 (if owed), execute h, complete h. On failure it reports a submit error at the frontier with the store unchanged, or an execute error at frontier+1 |
| ChainStore.AddNilIsError | consensus/vbft/chain_store.go:121-123 | Adding nil returns an error and changes nothing |
| ChainStore.AddStaleIsNoOp | consensus/vbft/chain_store.go:125-128 | A block at or below the frontier is accepted with no change and no ledger call |
| ChainStore.GapStopsAdvance | consensus/vbft/chain_store.go:136-176 | With no entry right above the frontier, the loop ends at once without error |
| ChainStore.StepKeys | consensus/vbft/chain_store.go:136-176 | A loop pass never adds an entry, so the loop terminates |
| ChainStore.AdvanceEnd | consensus/vbft/chain_store.go:136-176 | The loop exits without error only at the first height with no pending entry, or when a submission is owed and its block is missing. An execute error leaves the frontier just below the failed height. A submit error leaves it at the height that could not be submitted, still owed |
| ChainStore.AdvanceCompletes | consensus/vbft/chain_store.go:161-165 | The frontier never decreases, and the blocks announced complete are exactly the heights from the old frontier + 1 to the new one, in increasing order |
| ChainStore.AdvanceExecutes | consensus/vbft/chain_store.go:154-158 | The blocks executed are the heights from the old frontier + 1 to the new one, in order, plus the next height when its execution failed |
| ChainStore.AdvanceSubmits | consensus/vbft/chain_store.go:141-146 | The blocks submitted run one height behind: from the old frontier (or the one after it when nothing was owed) to just below the new frontier, plus the frontier itself when an error ended the run while a submission was owed |
| ChainStore.SubmissionsInOrder | consensus/vbft/chain_store.go:141-172 | Within one `AddBlock` the submitted heights strictly increase with no height skipped |
| ChainStore.AdvanceOwes | consensus/vbft/chain_store.go:160-165 | The loop never lowers the frontier, and afterwards a submission is owed exactly when one was owed before or the frontier moved |
| ChainStore.TrailExtends | consensus/vbft/chain_store.go:141-172 | Appending one run's submissions to a trail of earlier ones (climbing, and ending at or just below the frontier) gives such a trail again. From a settled trail (last submission just below the frontier) the new heights rise one at a time, and a run without error leaves the trail settled |
| ChainStore.AdvanceExtendsTrail | consensus/vbft/chain_store.go:136-176 | One run of the loop extends the submission trail as `TrailExtends` says |
| ChainStore.AddExtendsTrail | consensus/vbft/chain_store.go:120-179 | One `AddBlock` extends the trail. If the trail was settled and the call returned no error, it stays settled, so a height is submitted again only after a call that returned an error. A call that moves the frontier without error settles the trail whatever state it started in |
| ChainStore.AddEachExtendsTrail | consensus/vbft/chain_store.go:120-179 | Any sequence of `AddBlock` calls, with no reload between them, extends the trail |
| ChainStore.AddFirstSubmit | consensus/vbft/chain_store.go:120-179 | If nothing has been submitted since the ledger held height h, the first submission of an `AddBlock` call is block h+1. A call that submits nothing leaves that state as it is |
| ChainStore.AddEachFirstSubmit | consensus/vbft/chain_store.go:120-179 | The same over any sequence of `AddBlock` calls: the first block submitted is h+1 |
| ChainStore.SubmissionsClimbAcrossCalls | consensus/vbft/chain_store.go:120-179 | Over any sequence of `AddBlock` calls on a freshly opened store, the first block submitted is the one just above the opening height. From there the submitted heights never go down and never skip a height: each is the previous one again (a retry after an execute or submit error) or the next one |
| ChainStore.OneBlockLag | consensus/vbft/chain_store.go:141-154 | Every execution of block h comes right after the submission of block h-1, except the first call of a run when no submission was owed |
| ChainStore.SubmitFailureChangesNothing | consensus/vbft/chain_store.go:141-146 | A failed submission aborts with the store exactly as it was (the `blkNum > chainedBlockNum` guard always holds) and with the submission as the only call |
| ChainStore.StepRetains | consensus/vbft/chain_store.go:147-165 | One loop pass keeps the retention bound |
| ChainStore.AdvanceRetains | consensus/vbft/chain_store.go:136-176 | The whole loop keeps the retention bound: an entry at or below the frontier exists only while a submission is owed, and then only at the frontier or just below it |
| ChainStore.AddRetains | consensus/vbft/chain_store.go:120-179 | `AddBlock` keeps the retention bound |
| ChainStore.RetainedTailAtMostTwo | consensus/vbft/chain_store.go:147-149 | Under that bound at most two entries sit at or below the frontier |
| ChainStore.AdvanceKeepsEntries | consensus/vbft/chain_store.go:136-176 | An entry at or above the frontier keeps its block through the loop unless the frontier passes it |
| ChainStore.AddStoresEntry | consensus/vbft/chain_store.go:133 | A new block is stored under its own height and stays there with its block until the frontier passes it |
| ChainStore.ReloadResyncs | consensus/vbft/chain_store.go:103-118 | The reload only moves the frontier forward, to the ledger height, and then keeps exactly the entries above it, unchanged; when the ledger is not ahead, nothing changes |
| ChainStore.ReloadRetains | consensus/vbft/chain_store.go:103-118 | The reload keeps the retention bound |
| ChainStore.ReloadThenAddSubmitsAbove | consensus/vbft/chain_store.go:103-146 | After a reload that moved the frontier, `AddBlock` never submits a height the ledger already holds |
| ChainStore.ReloadThenAddStalls | consensus/vbft/chain_store.go:103-152 | If a submission was owed when the reload moved the frontier, `AddBlock` only inserts the new entry and cannot advance |
| ChainStore.ReloadStrands | consensus/vbft/chain_store.go:103-118 | A reload that moves the frontier while a submission is owed leaves the store stuck: the owed flag stays set and the entry it needs at the new frontier is gone |
| ChainStore.AddKeepsStuck | consensus/vbft/chain_store.go:120-152 | `AddBlock` on a stuck store makes no ledger call, keeps the frontier and leaves the store stuck. It returns the nil-block error for nil and no error otherwise |
| ChainStore.StuckForever | consensus/vbft/chain_store.go:120-179 | Once stuck, no sequence of `AddBlock` calls (nil blocks included) executes or submits anything or moves the frontier |
| ChainStore.ReloadSettling | consensus/vbft/chain_store.go:103-118 | The corrected reload keeps exactly the entries and frontier of `Reload`, and clears the owed submission when the frontier moves |
| ChainStore.ReloadSettlingAdvances | consensus/vbft/chain_store.go:103-165 | After the corrected reload the store is not stuck and keeps the retention bound. Delivering the block above the ledger height then executes it when the ledger accepts it |
| ChainStore.ScenarioElevenTwelve | consensus/vbft/chain_store.go:120-179 | From a store opened at height 10, adding 11 then 12 makes the calls execute 11, complete 11, submit 11, execute 12, complete 12; the frontier ends at 12 with entries 11 and 12 pending |
| ChainStore.ChainStore.OpenBlockStore | consensus/vbft/chain_store.go:44-52 | The frontier starts at the ledger height, with no entries and no submission owed; the empty submission trail is `Orderly` |
| ChainStore.ChainStore.GetChainedBlockNum | consensus/vbft/chain_store.go:58-60 | Returns the frontier |
| ChainStore.ChainStore.GetExecMerkleRoot | consensus/vbft/chain_store.go:70-77 | A non-nil entry's state root, otherwise the zero hash |
| ChainStore.ChainStore.GetExecWriteSet | consensus/vbft/chain_store.go:87-93 | A non-nil entry's write set, otherwise nil |
| ChainStore.ChainStore.SetExecMerkleRoot | consensus/vbft/chain_store.go:62-68 | Updates only the state root of a non-nil entry, which the getter then returns; otherwise nothing changes |
| ChainStore.ChainStore.SetExecWriteSet | consensus/vbft/chain_store.go:79-85 | Updates only the write set of a non-nil entry, which the getter then returns; otherwise nothing changes |
| ChainStore.ChainStore.SetExecuteResult | consensus/vbft/chain_store.go:95-101 | Replaces a non-nil entry's result, which both getters then reflect; otherwise nothing changes |
| ChainStore.ChainStore.SetBlock | consensus/vbft/chain_store.go:181-183 | Stores any entry, nil included, and keeps the retention bound when it stores above the frontier |
| ChainStore.ChainStore.GetBlock | consensus/vbft/chain_store.go:185-212 | Returns the pending entry when the height has one. Otherwise it succeeds exactly when all three ledger lookups succeed. The rebuilt entry then holds the block built by `initVbftBlock` from the ledger's block and state root, with that root and no write set. On failure the error is the one from the first lookup that failed |
| ChainStore.ChainStore.ReloadFromLedger | consensus/vbft/chain_store.go:103-118 | The new state is `Reload` of the old one at the ledger height, and no ledger call is made |
| ChainStore.ChainStore.AddBlock | consensus/vbft/chain_store.go:120-179 | The new state, the calls made and the error are those of `AddSpec`, which the lemmas above describe. The store stays `Orderly`: all submissions over its life climb one height at a time and end at or just below the frontier |
| ChainStore.ChainStore.ChainPending | consensus/vbft/chain_store.go:135-176 | The loop leaves the state, calls and error of `Advance` |
| ChainStore.ChainStore.Iterate | consensus/vbft/chain_store.go:137-175 | One loop pass performs `Step`: `stop` with no error on a break, `stop` with the error on a return, otherwise the continued state |
| Interop.NewInteropValue | vm/neovm/types/interop_value.go:31-33 | Wraps the value as it is; a nil value equals nothing |
| Interop.Equals | vm/neovm/types/interop_value.go:35-41 | False when either side is nil; otherwise true exactly when the byte renderings are equal |
| Interop.EqualsReflexiveExactlyOnNonNil | vm/neovm/types/interop_value.go:35-41 | A value equals itself exactly when it is not nil |
| Interop.NilNotEqualToNil | vm/neovm/types/interop_value.go:36-38 | Two nil interops are not equal |
| Interop.EqualsSymmetric | vm/neovm/types/interop_value.go:35-41 | Equality is symmetric |
| Interop.EqualsTransitive | vm/neovm/types/interop_value.go:35-41 | Equality is transitive, and equal values wrap the same bytes |
| Interop.NewInteropValueEquals | vm/neovm/types/interop_value.go:31-41 | Two wrapped values are equal exactly when both are present and have the same bytes |
| Increment.NewIncrementValidator | consensus/solo/solo.go:74 | A fresh window tracks nothing and has the given capacity |
| Increment.BlockRange | consensus/solo/solo.go:272 | The range is half-open, its length is the number of tracked heights, and it is at most the capacity |
| Increment.Clean | consensus/solo/solo.go:277 | Forgets every tracked height and keeps the capacity |
| Increment.EmptyAcceptsAll | consensus/solo/solo.go:277-287 | A cleaned or fresh validator accepts every transaction |
| Increment.AddBlock | consensus/solo/solo.go:143-145 | The window stays within capacity, ends right after the added height, and rejects the block's own transactions at that height |
| Increment.VerifyRejectsTracked | consensus/solo/solo.go:287 | A hash committed at a tracked height is rejected for every lower bound up to that height |
| Increment.VerifyMonotone | consensus/solo/solo.go:287 | Raising the lower bound only accepts more; a bound past the window accepts everything |
| Increment.AddBlockKeepsRejections | consensus/solo/solo.go:143-145 | Appending a contiguous block keeps every earlier verdict at bounds the eviction did not pass, and adds rejections for the new hashes |
| Solo.ValidHeight | consensus/solo/solo.go:270-279 | The duplicate-check bound is the window start when the window ends right after the ledger height, and the ledger height otherwise; it never exceeds the ledger height |
| Solo.ValidHeightCoversWindow | consensus/solo/solo.go:272-287 | In step, the check at that bound covers every tracked height |
| Solo.SyncedWindow | consensus/solo/solo.go:274-278 | The validator is kept when in step and cleaned otherwise |
| Solo.ResolveParentHeight | consensus/solo/solo.go:300-303 | The claimed parent height is the ledger's, or one more exactly when that parent block is cached |
| Solo.TxHashes | consensus/solo/solo.go:291-294 | One hash per transaction, in block order |
| Solo.FilterPool | consensus/solo/solo.go:284-290 | The kept transactions are the pool filtered by the duplicate check, in pool order |
| Solo.CollectTxHashes | consensus/solo/solo.go:291-294 | The collected hashes are `TxHashes` of the block's transactions |
| Solo.MakeFails | consensus/solo/solo.go:263-332 | Production fails exactly when the bookkeeper address cannot be derived or the block hash cannot be signed; the validator is cleaned exactly when the address was derived and the window is out of step |
| Solo.MakeHeader | consensus/solo/solo.go:295-335 | Header fields: the next height, the current block hash, this shard, the resolved parent height, the merkle root of the block's own transaction hashes, the block root for that root, the node's key as the only bookkeeper, and one signature over the hash of the unsigned block |
| Solo.MakeSelectsFromPool | consensus/solo/solo.go:282-290 | A transaction is in the block exactly when it is in the pool snapshot and passes the check, and the block keeps pool order as an increasing selection of pool positions |
| Solo.MakeRejectsReplays | consensus/solo/solo.go:272-290 | In step, no transaction committed at any tracked height gets into the block |
| Solo.Gen | consensus/solo/solo.go:171-188 | Succeeds exactly when the block was made, its parent height is at least the stored one, and the ledger executes and then submits it; success carries that block and result. Each failure gives its own error, from the first stage that failed: make, parent height, execute (with the height) or submit (with the height) |
| Solo.NextParentHeight | consensus/solo/solo.go:191-192 | The stored parent height becomes the persisted block's parent height on success and is unchanged on failure; either way it never decreases |
| Solo.GroupByIsFilter | consensus/solo/solo.go:200-203 | Each shard's group is exactly that shard's messages in arrival order, and a group exists exactly when some message targets the shard |
| Solo.GroupShardMsgs | consensus/solo/solo.go:200-203 | The grouping loop computes `GroupBy` |
| Solo.Entries | consensus/solo/solo.go:206-220 | One signed entry per visited shard, in visiting order, naming that shard |
| Solo.MsgHashes | consensus/solo/solo.go:221-223 | One group hash per entry, in entry order |
| Solo.PreHash | consensus/solo/solo.go:241-248 | The chain link is the stored previous hash when the lookup succeeds, and the zero hash on any lookup error |
| Solo.Envelopes | consensus/solo/solo.go:225-257 | One broadcast per entry, in entry order, each the envelope for that entry's shard |
| Solo.SignGroups | consensus/solo/solo.go:206-220 | Visits the groups in some order. A signing failure means some group's hash does not sign; success means the order lists every group once and the entries are those signed in that order |
| Solo.EntriesSnoc | consensus/solo/solo.go:213-218 | Signing one more group extends the entries by that group's entry |
| Solo.CollectMsgHashes | consensus/solo/solo.go:221-223 | The collected hashes are `MsgHashes` of the entries |
| Solo.SendEnvelopes | consensus/solo/solo.go:225-257 | The broadcast loop sends `Envelopes`, with the previous hash taken from the ledger only when its lookup succeeds |
| Solo.DispatchShape | consensus/solo/solo.go:200-257 | For any visiting order: one envelope per shard, in that order, carrying exactly that shard's messages in arrival order |
| Solo.DispatchDelivers | consensus/solo/solo.go:200-257 | Envelopes go to distinct shards; a message is in an envelope exactly when the envelope is for its target; every message's target gets an envelope |
| Solo.DispatchEnvelopes | consensus/solo/solo.go:213-247 | Every entry names its shard, its group's hash and one signature over it. Every envelope carries the sending shard, the height twice, the merkle root of all group hashes, the full entry list and its own shard's previous hash |
| Solo.TxHashSet | consensus/solo/solo.go:143-145 | The set handed to the validator is exactly the hashes of the block's transactions |
| Solo.SoloService.constructor | consensus/solo/solo.go:70-94 | A new service has a fresh validator of capacity 20, the given parent height, and is neither started nor subscribed |
| Solo.SoloService.NewSoloService | consensus/solo/solo.go:70-97 | Fails exactly when the current block header cannot be read; otherwise a new service with the header's parent height |
| Solo.SoloService.SyncValidator | consensus/solo/solo.go:270-279 | Returns `ValidHeight` and leaves the validator as `SyncedWindow`, changing nothing else |
| Solo.SoloService.MakeBlock | consensus/solo/solo.go:260-337 | The block or error, and the validator left behind, are those of `Make`, which the lemmas above describe; other fields are unchanged |
| Solo.SoloService.GenBlock | consensus/solo/solo.go:171-194 | The validator is as `Make` leaves it and the parent height is `NextParentHeight` of `Gen`. A failure returns the error and sends nothing; a success sends what `Broadcasts` allows for the block's height and cross-shard messages. The stored parent height never decreases |
| Solo.SoloService.BroadCrossShardHashMsgs | consensus/solo/solo.go:196-258 | Nothing is sent for no messages or when any group fails to sign; otherwise the broadcasts are the dispatch for some visiting order of the groups |
| Solo.SoloService.Receive | consensus/solo/solo.go:99-155 | Start: idempotent, and subscribes only on the first start. Stop: on a running service, cleans the validator and unsubscribes. A saved block of this shard goes into the validator. A tick runs `GenBlock`. Only a tick sends anything, and lifecycle and unknown messages change nothing |

## Left out

- Heights are unbounded. The source's `uint32` arithmetic (`blkNum++`, `height + 1`, `parentHeight + 1`) would wrap at 2^32 - 1, and `blkNum - 2` would underflow at height 1. Neither is modelled: eviction at height 1 removes nothing.
- ChainStore.ChainStore.AddBlock: the `panic("nil block header")` at chain_store.go:130-131 is not modelled, because a block here always has a header.
- ChainStore.PendingBlock: `execResult` is a value, so a nil `*ExecuteResult` inside a non-nil entry is not modelled. `SetExecMerkleRoot`, `GetExecMerkleRoot`, `SetExecWriteSet` and `GetExecWriteSet` dereference it (chain_store.go:62-93). So does `AddBlock` when it submits (`*submitBlk.execResult`, chain_store.go:143). `SetExecuteResult` only assigns it. A nil `block.block` is not modelled either: `AddBlock` would panic on it at chain_store.go:125, before the header check.
- ChainStore.ChainStore.AddBlock: the `BlockConsensusComplete` notification to the server actor is recorded in the ghost `calls` trace as a `Complete` call. Actor messaging itself is not modelled, and neither are `close` and `server`.
- Solo.SoloService.Receive: timers, the goroutine, `existCh` and the event subscription are not modelled. They are represented by the booleans `started` and `subscribed`, and a `TimeOut` message stands for a timer tick. Actor spawning, `GetPID`, `Start` and `Halt` (which only send a message to the actor itself) are left out.
- Solo.SoloService.GenBlock: `xshard.DelCrossShardTxs` (solo.go:189) is a ledger side effect with no result, so it is not modelled.
- Solo.Ledger: the ledger is one snapshot per round. The previous-message-hash lookup after `SubmitBlock` sees the same snapshot as the rest of the round, so the chaining of message hashes across consecutive heights is not modelled.
- Solo.Unsigned: `Version`, `Timestamp` (wall clock) and `ConsensusData` (a random nonce) are not in the header model. The envelope's serialization into `CrossShardPayload.Data` and the payload `Version` are not modelled: the envelope is kept as a value.
- Solo.Unsigned: a `GetCrossShardTxs` error is logged and the block carries the map returned with it, which is taken to be empty.
- Solo.SendEnvelopes: the "not found" branch at solo.go:226-230 is not modelled, because every signed entry comes from a key of the same map; the precondition states this.
- Increment: the validator's implementation is not part of this model. The module follows its observable contract as the service uses it. A block that does not continue the window restarts the window at that block's height.
- Logging (`log.*`) is left out everywhere.
- The single iteration of `AddBlock`'s loop is the method `ChainStore.ChainStore.Iterate`, and `ChainPending` runs it until it stops. Likewise the loops of `makeBlock` and `broadCrossShardHashMsgs` are the module-level methods `FilterPool`, `CollectTxHashes`, `GroupShardMsgs`, `SignGroups`, `CollectMsgHashes` and `SendEnvelopes`, called in the source's order.
- ChainStore.ScenarioElevenTwelve: the eviction at chain_store.go:147-149 deletes only `blkNum - 2`. When block 12 is chained that is height 10, so block 11 stays pending until block 13 is chained.
- ChainStore.ChainStore.GetBlock: when `GetStateMerkleRoot` fails, the source returns a new message that embeds the height and the ledger's message (chain_store.go:195-199). The model returns the ledger's message unchanged, because it does not model formatting a height into text. The other two failures return the ledger's error as the source does.
- ChainStore.ChainStore.SetBlock: entries are `PendingBlock` values, so aliasing is not modelled. `pendingBlocks` holds `*PendingBlock` pointers (chain_store.go:133, 181-183). A caller that keeps the pointer it passed to `AddBlock` or `SetBlock`, or one entry stored under two heights by `SetBlock`, would see the `SetExecMerkleRoot`, `SetExecWriteSet` and `SetExecuteResult` updates (chain_store.go:62-101) made through the other reference. In the model an update changes only the entry at the height it names.
- ChainStore.AdvanceEnd: the frontier ending at the highest height reachable through consecutive pending entries is proved for one `AddBlock` call (`AdvanceEnd` with `AdvanceKeepsEntries`), not for a sequence of calls.
- ChainStore.SubmissionsClimbAcrossCalls: the order of submissions holds across `AddBlock` calls only when no `ReloadFromLedger` moves the frontier between them. That is why `Orderly` is kept by `AddBlock` but not by `ReloadFromLedger`. Across calls the order is not strict. Suppose a call fails to submit a block, or a call submits a block and then fails to execute the next one. The next call that finds the block above the frontier pending then submits the frontier block again. Stale and nil calls submit nothing, and an execute error with no submission owed leaves nothing to resubmit.

## Findings

| source | as written | input that shows it | evidently intended | confidence | as-written member | corrected member |
|---|---|---|---|---|---|---|
| consensus/vbft/chain_store.go:103-118 | `ReloadFromLedger` moves `chainedBlockNum` to the ledger height and drops every entry at or below it, but leaves `needSubmitBlock` as it was | A store at frontier 10 with block 10 owed (`needSubmitBlock` true) reloads to ledger height 12. Entry 12 is dropped, so every later `AddBlock` breaks at chain_store.go:141-152 before executing anything. A stale add is a no-op, so only a `SetBlock` at height 12 could unblock it | The ledger already holds the block at the new frontier, so no submission is owed after the frontier moves, and the store resumes with the next block | medium, not executed | ChainStore.StuckForever | ChainStore.ReloadSettlingAdvances |

`ChainStore.ReloadStrands`, `ChainStore.AddKeepsStuck` and `ChainStore.ReloadThenAddStalls` support the as-written half. `ChainStore.ReloadSettling` is the corrected reload. The `ChainStore` class itself keeps the code as written: its `ReloadFromLedger` follows `Reload`.
