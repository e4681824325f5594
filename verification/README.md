# A verified model of the openblockchain peer

A Dafny 4.11 model of the parts of the peer whose correctness is hard to see by reading one
function: the chaincode protocol between peer and shim, the ledger and its indexers, the
world state under execution, peer-to-peer state sync, consensus quorums, and the small
concurrent and arithmetic pieces around them.  `dafny verify dfyconfig.toml` checks it.

Each part is built the same way.  Code that changes things in place is a class or a loop
(`LedgerImpl`, `Indexer`, `Session`, `PbftReplica`, `VMController`, `Pool`, ...), and its
methods are proved to do what a pure step function says.  The step functions make up a state
machine whose steps interleave freely, crashes and failures included, and the theorems are
about every run of it.  Serialisation, hashing, macs, ciphers and curve arithmetic belong to
libraries: they are function-valued records, arbitrary but for the laws named with them.

| files | what they model |
|---|---|
| `Codec`, `DeltaCodec`, `Blocks`, `Indexes`, `Ledger` | database keys and values and stored state deltas at byte level, blocks and their hash, the index of a chain, the batch state machine over a hash-linked chain with crashes |
| `AsyncIndexer` | the indexing goroutine, its watermark, catch-up after a restart, readers that wait |
| `ChaincodeFsm`, `Handlers` | the two finite state machines, the handlers that drive them, and a session of the two |
| `Lockstep`, `LockstepShares`, `LockstepViews`, `LockstepRuns`, `LockstepProgress`, `LockstepOutcomes`, `LockstepLimits` | the product of the two machines over two FIFO streams, with one transaction at a time and any number of concurrent queries |
| `QueryGuard` | the peer's guard that keeps queries read-only, against any message sequence |
| `RangePaging`, `RangeScan` | range queries: pages over the stream, and the scan of three layers they page through |
| `StateTypes`, `WorldState`, `StateHistory` | deltas of batch and transaction, committing them to the bucket tree or the trie, and rolling the state back and forth by the stored ones |
| `BatchExec`, `BatchCommit` | executing a batch, and what the ledger commits for it |
| `SnapshotStream`, `BlockRange` | snapshot streaming with correlation ids; block ranges in 64-bit arithmetic |
| `ContainerLocks` | the table of reference-counted container locks |
| `TCertDerive`, `TCertPool` | transaction certificates: derivation on both sides, and the pool that hands them out |
| `Pbft`, `PbftNormal`, `PbftSplit` | quorums of the PBFT core, agreement within a view, how a request gets executed, and how agreement fails |
| `Common` | the option type |

## How the lockstep proof is put together

A world is two handlers, an executor and two streams.  `LockstepShares` looks at a world from
one uuid: how many messages and goroutines carry it, and its table entries.  The stage of the
session (booting, registered, ready, delivering, executing, ending) says what that share has to
be, and for every step one small lemma shows that the share of the uuid concerned stays right.
`LockstepViews` puts the shares of all uuids together, `LockstepRuns` adds the machines, the
loops and the order of the streams, and carries the invariant through every run.
`LockstepProgress` draws two consequences: no reachable world is stuck while anyone waits, and a
uuid without a context has left no trace on either side.  `LockstepOutcomes` follows the outcome
of an execution from the chaincode's return to the notice its executor collects.  `LockstepLimits` shows what the theorem
has to grant.  `HandlerSession.Session` is the same session as objects updated in place; its
driver keeps the invariant in a loop over any schedule.

## Where the code does less than its documentation says

Each of these is stated as a lemma with the failing case and the exact condition.

- The PBFT quorum `(N+f+1)/2` is documented to share a correct replica between any two quorums.
  The division rounds down, so that holds if and only if N+f is odd; replicas agree within a view
  if and only if f is 0 or N+f is odd, be it on what they prepare, commit or execute
  (`QuorumsShareCorrectIff`, `AgreementIff`).  The quorum
  documented as N-f is N-f only for N = 3f+1.
- `isRunning` lets a QUERY go out before READY has been sent; the shim takes a QUERY exactly when
  the peer is past initialisation and READY is on the stream (`QueryTakenIff`,
  `QueryOvertakesReady`).
- A ledger error told to a waiting execution parts the two machines, whether a read or a write
  failed, and both can happen (`ReadErrorBreaksLockstep`, `WriteErrorBreaksLockstep`,
  `ErrorsCanHappen`).
- A query stays read-only if and only if nothing is left over from an earlier use of its uuid
  when it is submitted (`QueryReadOnlyIffFresh`).
- A restart of the asynchronous indexer repairs the index if and only if the chain is empty, or
  block 0 had been indexed before and no catch-up write fails (`RestartIndexesAllIff`).
- A stored state delta comes back unchanged if and only if no value in it is the empty byte string;
  an empty value comes back as a deletion (`RoundTripIff`, `EmptyValueBecomesDeletion`).
- Rolling the state backwards by stored deltas restores it with the bucket tree; with the trie it
  does if and only if no key is deleted by the first block that changes it, since the trie does
  not look at the direction of a deletion (`StoredDeltasRollBackIff`, `TrieLosesDeletedKey`).
- A client that was closed can still hand out certificates; that is safe if and only if they could
  not be stored, or none is left, or nothing else holds them any more (`DrawSafeIff`,
  `DrawAfterStopSafeIff`, `ClosedClientHandsOutTwice`).
- Looking a block up by an unknown hash yields block 0 (`FetchByHashRightIff`).
- A batch can be committed without being begun under the nil id (`CommitNeedsBeginUnlessNil`).
- The loop of `sendBlocks` never ends on ranges up to the last 64-bit number or down over all
  of them, that of `sendStateDeltas` on every range down to block 0 (`SendBlocksCollectsIff`,
  `SendStateDeltasCollectsIff`).
- The terminating message of a snapshot stream is sent after a failed delta too.  After at least
  one delta its number tells a whole snapshot from a failed one; without any the receiver cannot
  tell an empty snapshot from a failed one (`TerminatedMeansAllSent`, `NoDeltasTellNothing`).
- A write under the empty uuid or outside a transaction panics the peer (`BatchIsFoldOfSuccesses`).
- A key set to the empty value can be read until the batch is committed, and is gone afterwards
  (`CommitKeepsBatchState`).
- A reply of the authority shorter than asked for panics the client (`GetTCertsFromTCA`).
- The comment on rolling state backwards names the wrong value of `RollBackwards`; the model
  follows the code, where `true` rolls backwards.

## Model

| member | source | states |
|---|---|---|
| `Codec.EncodeVarint` | vendor/github.com/golang/protobuf/proto/encode.go:83-106 | the loop emits base-128 groups, least significant first, continuation bit on all but the last |
| `Codec.DecodeVarint` | vendor/github.com/golang/protobuf/proto/decode.go:63-108 | the loop reads the value and the next offset, or fails on truncation or overflow, as the recursive reader does |
| `Codec.VarintRoundTrip` | vendor/github.com/golang/protobuf/proto/decode.go:63-108 | every 64-bit value is read back from its varint wherever it stands and whatever surrounds it |
| `Codec.VarintPrefixFree` | openchain/ledger/blockchain_indexes.go:167-172 | no varint is a proper prefix of another, so concatenated varints parse one way |
| `Codec.BlockNumberRoundTrip` | openchain/ledger/blockchain_indexes.go:157-164 | block numbers survive encoding for all 64-bit values |
| `Codec.BlockNumTxIndexRoundTrip` | openchain/ledger/blockchain_indexes.go:167-185 | a pair of block number and transaction index survives encoding for all 64-bit values |
| `Codec.EncodeListTxIndexes` | openchain/ledger/blockchain_indexes.go:204-210 | the loop writes the varint of each index, one after the other |
| `Codec.ListTxIndexesInjective` | openchain/ledger/blockchain_indexes.go:204-210 | different index lists never share an encoding |
| `Codec.AddressKeyInjective` | openchain/ledger/blockchain_indexes.go:197-202 | the length prefix makes address and block number recoverable from the composite key |
| `Codec.IndexKeysUnambiguous` | openchain/ledger/blockchain_indexes.go:188-222 | two keys of the four index families are equal if and only if they are the same family and the same parts |
| `Codec.Uint64RoundTrip` | openchain/ledger/blockchain.go:338-346 | the eight big-endian bytes of a number decode to it |
| `Codec.BlockKeysUnambiguous` | openchain/ledger/blockchain.go:328-342 | block keys are injective and never equal the key of the block count |
| `DeltaCodec.EncodeRawBytes` | vendor/github.com/golang/protobuf/proto/encode.go:182-199 | wherever the bytes written stand in a buffer, the reader gets the byte string back and stops right behind it |
| `DeltaCodec.EncodeEntry` | openchain/ledger/statemgmt/state_delta.go:273-288 | key, value and previous value are read back in that order, none and empty alike as none |
| `DeltaCodec.MarshalKVs` | openchain/ledger/statemgmt/state_delta.go:267-291 | in whatever order the keys are walked, the bytes read back as the whole map with its empty values turned into none |
| `DeltaCodec.Marshal` | openchain/ledger/statemgmt/state_delta.go:251-265 | in whatever order the two maps are walked, the bytes read back as the whole delta with its empty values turned into none, whatever follows them |
| `DeltaCodec.DecodeMany` | openchain/ledger/statemgmt/state_delta.go:301-353 | the loop reads the announced number of entries, later ones winning, up to the first error, as the recursive reader does |
| `DeltaCodec.RoundTripIff` | openchain/ledger/statemgmt/state_delta.go:294-353 | a stored delta comes back unchanged if and only if it holds no empty value or previous value |
| `DeltaCodec.EmptyValueBecomesDeletion` | openchain/ledger/statemgmt/state_delta.go:331-339 | a key set to the empty byte string comes back as a deletion of the key |
| `DeltaCodec.UnmarshalNeverEmpty` | openchain/ledger/statemgmt/state_delta.go:331-349 | whatever the bytes, a delta read from them holds no empty value, so storing it again loses nothing |
| `DeltaCodec.LoadedIsNormal` | openchain/ledger/statemgmt/state/state.go:240-251 | the delta fetched for a block is the one that was stored, with its empty values turned into none |
| `Blocks.Wire.GetHashIsHashOf` | protos/block.go:65-85 | the hash of a block is that of the block without its non-hash data, and never fails when decoding undoes encoding |
| `Blocks.LastTxIsLast` | openchain/ledger/blockchain.go:114-125 | the scan used as reference finds a uuid exactly if it occurs, and nothing later on the chain carries it |
| `Indexes.AddIndexDataForPersistence` | openchain/ledger/blockchain_indexes.go:85-116 | the loops append the block-hash entry, one entry per transaction, and the index list of each executing address |
| `Indexes.IndexRefinesScan` | openchain/ledger/blockchain_indexes.go:85-136 | the index of any prefix of any chain answers every uuid and every hash as a scan of the prefix would |
| `Indexes.FetchByUUIDIsLastTx` | openchain/ledger/blockchain_indexes.go:127-136 | a fetch by uuid decodes to the last transaction with it, by block then index, or not-found exactly if there is none |
| `Indexes.FetchByHashIsLastOrZero` | openchain/ledger/blockchain_indexes.go:118-125 | a fetch by hash decodes to the last block with it, and to 0 when there is none |
| `Indexes.FetchByHashRightIff` | openchain/ledger/blockchain_indexes.go:118-125 | the block found has the hash asked for if and only if some block on the chain has it |
| `Indexes.AddressIndexIs` | openchain/ledger/blockchain_indexes.go:93-114 | after indexing any prefix, an address and block number have an entry exactly for the one executing address and indexed blocks with transactions, and it lists all of them in order |
| `LedgerSpec.CommitAppends` | openchain/ledger/ledger.go:114-152 | a commit appends exactly one block, linked to the last, indexed, with the digest of the state its delta leads to |
| `LedgerSpec.RestartRebuilds` | openchain/ledger/blockchain.go:51-75 | a restart on a disk that holds a chain rebuilds its size and last hash |
| `LedgerSpec.FailedCommitChangesNothing` | openchain/ledger/ledger.go:114-152 | a failed commit changes neither disk nor chain; if the id was right it closes the batch and drops its changes |
| `LedgerSpec.RollbackUndoesBatch` | openchain/ledger/ledger.go:156-164 | begin, execute anything and roll back give back exactly the ledger before, on disk and in memory |
| `LedgerSpec.OthersAreRefused` | openchain/ledger/ledger.go:387-400 | a begin while a batch is open, and a rollback or commit under another id, are refused and change nothing |
| `LedgerSpec.PendingWasExecuted` | openchain/ledger/ledger.go:402-406 | in every run, pending changes were executed with no commit, rollback or crash since, so a batch never commits what an earlier one left |
| `LedgerSpec.StepKeepsChain` | openchain/ledger/ledger.go:84-164 | begin, execute, commit, failed commit, rollback and crash each keep the chain invariant |
| `LedgerSpec.EveryRunKeepsChain` | openchain/ledger/ledger.go:84-164 | along every run each stored block names its predecessor's hash, index and state are those of the chain, and memory is what a restart would rebuild |
| `LedgerSpec.CommitNeedsBeginUnlessNil` | openchain/ledger/ledger.go:388-400 | a commit succeeds if and only if its id is the open one, so without a begin only under the nil id |
| `LedgerSpec.PreviewHashIsCommitHash` | openchain/ledger/ledger.go:98-109 | the preview block has the hash the committed block will have, although timestamps differ |
| `LedgerSpec.NoMismatchOnDisk` | openchain/ledger/ledger.go:352-386 | a disk that holds a chain has every block and no mismatching link |
| `LedgerObject.LedgerImpl.NewLedger` | openchain/ledger/ledger.go:70-78 | yields the ledger the disk determines, or none when the last block cannot be read |
| `LedgerObject.LedgerImpl.BeginTxBatch` | openchain/ledger/ledger.go:84-91 | takes the id, unless a batch is open |
| `LedgerObject.LedgerImpl.RollbackTxBatch` | openchain/ledger/ledger.go:156-164 | closes the batch of this id and refuses any other |
| `LedgerObject.LedgerImpl.BlockPersistenceStatus` | openchain/ledger/blockchain.go:213-223 | advances size and last hash on success only, and forgets the processed block either way |
| `LedgerObject.LedgerImpl.AddPersistenceChangesForNewBlock` | openchain/ledger/blockchain.go:187-211 | completes the block and gathers block, count and index entries; on a hashing error nothing is remembered |
| `LedgerObject.LedgerImpl.CommitTxBatch` | openchain/ledger/ledger.go:114-152 | does in place what the commit step says, on success and on each failure |
| `LedgerObject.LedgerImpl.GetTXBatchPreviewBlock` | openchain/ledger/ledger.go:98-109 | builds the block without changing anything, for the open id only |
| `LedgerObject.LedgerImpl.GetTransactionByUUID` | openchain/ledger/blockchain.go:114-125 | returns the last transaction with the uuid or not-found; the block and index it reads always exist |
| `LedgerObject.LedgerImpl.VerifyChain` | openchain/ledger/ledger.go:341-386 | reports bad bounds, the missing block, the greatest mismatching block, or 0 exactly when all blocks are there and none mismatches |
| `LedgerObject.LedgerImpl.VerifyWholeChain` | openchain/ledger/ledger.go:341-386 | after any run the whole chain verifies |
| `AsyncIndexSpec.WatermarkReadBack` | openchain/ledger/blockchain_indexes_async.go:283-294 | the watermark in the database names the last block of the indexed prefix, and is absent for the empty one |
| `AsyncIndexSpec.ReplayAnswersAsScan` | openchain/ledger/blockchain_indexes_async.go:132-148 | a database holding the first k blocks answers as a scan of them |
| `AsyncIndexSpec.RestartIndexesAllIff` | openchain/ledger/blockchain_indexes_async.go:150-178 | a restart whose catch-up is not interrupted has the whole chain indexed in order if and only if the chain is empty, or something was indexed and no catch-up write fails |
| `AsyncIndexSpec.CaughtUpIs` | openchain/ledger/blockchain_indexes_async.go:165-176 | the catch-up steps write just the blocks above the watermark whose writes succeed, in order |
| `AsyncIndexSpec.StepKeepsPrefix` | openchain/ledger/blockchain_indexes_async.go:55-178 | commits, hand-overs, writes, errors, announcements, readers, crashes and each write of a catch-up keep the index a prefix |
| `AsyncIndexSpec.IndexIsAlwaysAPrefix` | openchain/ledger/blockchain_indexes_async.go:55-219 | in every state of every run, crashes in the middle of a catch-up included, the indexed blocks are exactly 0 to the watermark, on disk and in memory |
| `AsyncIndexSpec.FreshRead` | openchain/ledger/blockchain_indexes_async.go:132-252 | a fetch that returned answers as a scan of a prefix that includes every block committed before the call |
| `AsyncIndexSpec.WaitingReaderGoesOn` | openchain/ledger/blockchain_indexes_async.go:228-252 | a waiting reader gets its answer as soon as the block it waits for is indexed and announced |
| `AsyncIndexSpec.EveryCallCanBeAnswered` | openchain/ledger/blockchain_indexes_async.go:132-148 | from every state without an error after start-up, a call can be answered from an index of the whole chain |
| `AsyncIndexSpec.FailedIndexRefuses` | openchain/ledger/blockchain_indexes_async.go:132-136 | after an error a call is refused at once |
| `AsyncIndexSpec.ErrorFreezesIndex` | openchain/ledger/blockchain_indexes_async.go:69-103 | after an indexing error nothing is indexed until the process restarts |
| `AsyncIndexSpec.CrashBeforeBlockZeroLosesIt` | openchain/ledger/blockchain_indexes_async.go:157-176 | a crash between commit and indexing of block 0 leaves it out while block 1 gets indexed |
| `AsyncIndexObject.Indexer.CreateIndexesInternal` | openchain/ledger/blockchain_indexes_async.go:116-130 | writes entries and watermark in one batch and remembers the block, or changes nothing |
| `AsyncIndexObject.Indexer.IndexPendingBlocks` | openchain/ledger/blockchain_indexes_async.go:150-178 | attempts every block above the watermark once and in order, going on after failures |
| `AsyncIndexObject.Indexer.Start` | openchain/ledger/blockchain_indexes_async.go:55-66 | reads the memory back and catches up, as a crash and the catch-up steps of the machine do |
| `LockstepRuns.EveryRunInLockstep` | openchain/chaincode/handler.go:234-358 | in every run neither machine is handed a message it cannot take, no request is dropped as a duplicate, and with no message in flight the machines match |
| `LockstepRuns.EveryRunConservesRequests` | openchain/chaincode/handler.go:382-582 | a uuid has exactly one trace of a request while its execution waits and none otherwise, each entry of the peer's map is backed by a waiting channel, each notifier gets at most one message |
| `LockstepRuns.StepKeeps` | openchain/chaincode/shim/chaincode.go:160-215 | each of the 21 kinds of steps of executors, loops, goroutines and executions keeps the invariant |
| `LockstepRuns.PeerReceiveKeeps` | openchain/chaincode/handler.go:1238-1287 | whatever the shim has sent, the peer's loop can take the next message |
| `LockstepRuns.ShimReceiveKeeps` | openchain/chaincode/shim/handler.go:848-860 | whatever the peer has sent, the shim's loop can take the next message, and replies find their waiting channel |
| `LockstepRuns.TakeExecKeeps` | openchain/chaincode/handler.go:1130-1169 | an offered INIT, READY or TRANSACTION is always acceptable when the loop takes it |
| `LockstepRuns.TakeFinishKeeps` | openchain/chaincode/shim/handler.go:262-310 | the end of an execution is acceptable to the shim's machine, and so is all that is still under way to it |
| `LockstepLimits.QueryTakenIff` | openchain/chaincode/handler.go:1341-1352 | for a running chaincode, the shim will take a QUERY sent now if and only if READY is out and the peer is in ready, transaction or its busy state |
| `LockstepLimits.QueryOvertakesReady` | openchain/chaincode/handler.go:1050-1060 | a run in which a QUERY sent to a running chaincode ends the shim |
| `LockstepLimits.ReadErrorBreaksLockstep` | openchain/chaincode/handler.go:537-582 | after any run, the ERROR reply to a failed read is unacceptable to the shim's machine or leaves the machines in states that do not match |
| `LockstepLimits.WriteErrorBreaksLockstep` | openchain/chaincode/handler.go:935-1026 | after any run, a failed write takes the peer back to init or transaction and the shim out of it, once the peer's free loop has taken and sent the error |
| `LockstepLimits.ErrorsCanHappen` | openchain/chaincode/handler.go:524-933 | runs that lead to a read about to be answered and to a write under way |
| `LockstepProgress.EveryRunCanMove` | openchain/chaincode/handler.go:234-299 | after every run, while the executor or a query waits for its outcome, some step other than a new submission is possible: the session never deadlocks |
| `LockstepProgress.EveryRunForgetsFinished` | openchain/chaincode/handler.go:382-490 | after every run, a uuid without a context has no transaction mark on either side, no write under way, no entry in the peer's map, and no thread, channel or request |
| `LockstepOutcomes.EveryNoticeTellsTheOutcome` | openchain/chaincode/shim/handler.go:262-355 | in every run the one notice in a context is READY for a launch without deployment; otherwise the chaincode has returned since the submission and the notice says success if and only if it returned with success |
| `LockstepOutcomes.CollectedNoticeTellsTheOutcome` | openchain/chaincode/exectransaction.go:112-120 | what an executor collects is COMPLETED or QUERY_COMPLETED if and only if the execution under that context returned with success |
| `Handlers.PeerHandler.HandleMessage` | openchain/chaincode/handler.go:1238-1287 | the new state, what is sent and whether the message was acceptable, for every message in every state |
| `Handlers.PeerHandler.StartRead` | openchain/chaincode/handler.go:524-536 | a read claims its uuid or is dropped as a duplicate |
| `Handlers.PeerHandler.StartWrite` | openchain/chaincode/handler.go:914-933 | a write is refused without a mark, dropped when the uuid is taken, and let through otherwise |
| `Handlers.PeerHandler.FinishWrite` | openchain/chaincode/handler.go:935-1026 | releases the uuid and offers RESPONSE or ERROR to the loop |
| `Handlers.PeerHandler.SendExecuteMessage` | openchain/chaincode/handler.go:1311-1339 | context, then mark; queries are sent at once, transactions offered to the loop, and a uuid in use is refused |
| `Handlers.ShimHandler.SendChannel` | openchain/chaincode/shim/handler.go:93-108 | hands a reply to the waiting execution, loses it without a channel, blocks when nobody waits |
| `Handlers.ShimHandler.HandleMessage` | openchain/chaincode/shim/handler.go:848-860 | starts executions and delivers replies as the shim's machine says, and stops on a message it cannot take |
| `Handlers.ShimHandler.Request` | openchain/chaincode/shim/handler.go:435-578 | refuses writes of queries and second requests, otherwise opens the channel and sends |
| `HandlerSession.Session.ProcessStream` | openchain/chaincode/handler.go:234-299 | one round of the peer's loop: a message or an offered next state is handled, what it sends goes to the stream, and it is sent on where the offer says so |
| `HandlerSession.Session.ChatWithPeer` | openchain/chaincode/shim/chaincode.go:160-215 | one round of the shim's loop on a message or the outcome of an execution |
| `HandlerSession.Session.Execute` | openchain/chaincode/handler.go:1130-1169 | launching, submitting and collecting, for transactions and queries |
| `HandlerSession.Session.Drive` | openchain/chaincode/handler.go:234-299 | under any schedule both handlers end where performing what is possible of it leads, and the loop keeps the lockstep invariant: neither loop dies, nothing is dropped, and quiet machines match |
| `QueryGuard.StepKeepsGuarded` | openchain/chaincode/handler.go:914-924 | whatever the chaincode sends or anyone submits, a guarded query stays unmarked and without a write under way |
| `QueryGuard.FreshQueryNeverWrites` | openchain/chaincode/handler.go:1264-1275 | over every run, a query submitted with a fresh uuid has no write under way while its context lives |
| `QueryGuard.RunKeepsHeld` | openchain/chaincode/handler.go:382-403 | in every run an entry of the uuid map belongs to just one goroutine serving the uuid, and no goroutine serves one without |
| `QueryGuard.QueryWriteIsRefused` | openchain/chaincode/handler.go:1264-1275 | in every state a write asked for by a query is answered with an error, on the spot or by the goroutine that looks at it |
| `QueryGuard.QueryReadOnlyIffFresh` | openchain/chaincode/handler.go:1311-1323 | in every state past initialisation with a live loop, all runs keep a query under a free uuid read-only if and only if neither a mark nor a write is left over |
| `RangePaging.PagesAreLossless` | openchain/chaincode/handler.go:584-704 | for any number of items the pages concatenate to them, all but the last are full and announce more, and no follow-up page is empty |
| `RangePaging.RangeServer.Fill` | openchain/chaincode/handler.go:655-676 | the loop fills a page of up to 100 from where the iterator stands and says whether more follows |
| `RangePaging.RangeServer.HandleRangeQueryState` | openchain/chaincode/handler.go:601-704 | the first page; the iterator stays open and registered exactly if a page is owed |
| `RangePaging.RangeServer.HandleRangeQueryStateNext` | openchain/chaincode/handler.go:721-806 | the next page, or an error for an unknown iterator; closed and removed with the last page, other iterators untouched |
| `RangePaging.StateRangeQueryIterator.HasNext` | openchain/chaincode/shim/chaincode.go:259-264 | true exactly while items are left |
| `RangePaging.StateRangeQueryIterator.Next` | openchain/chaincode/shim/chaincode.go:267-288 | the next item in order, fetching a page when needed and never indexing an empty one; an error exactly at the end |
| `RangePaging.Drain` | openchain/chaincode/shim/chaincode.go:259-288 | walking to the end yields every remaining item once in order and leaves the ledger iterator closed and removed |
| `RangeScan.ScanIsVisible` | openchain/ledger/statemgmt/state/composite_range_scan_iterator.go:44-83 | a scan yields a key with a value if and only if it is in range and a read in the transaction would return that value |
| `RangeScan.ScanHasNoRepeats` | openchain/ledger/statemgmt/state/composite_range_scan_iterator.go:50-83 | no key is yielded twice, though it may be in all three layers |
| `RangeScan.CompositeRangeScanIterator.Next` | openchain/ledger/statemgmt/state/composite_range_scan_iterator.go:50-83 | moves to the head of what is still to come, skipping keys of newer layers and moving on to the next layer; what it has yielded and what is to come stay the whole scan |
| `RangeScan.CompositeRangeScanIterator.GetKeyValue` | openchain/ledger/statemgmt/state/composite_range_scan_iterator.go:86-88 | the last item yielded |
| `RangeScan.ScanAll` | openchain/ledger/statemgmt/state/state.go:136-149 | a scan walked to its end returns each visible key in range once, with the value a read in the transaction would return |
| `WorldState.GetReadsVisible` | openchain/ledger/statemgmt/state/state.go:120-132 | a read sees transaction over batch over committed state, deletions included, or the committed state alone |
| `WorldState.ChangeIsPut` | openchain/ledger/statemgmt/state/state.go:152-197 | a set or delete changes just this key of what the transaction sees, and nothing of the batch |
| `WorldState.FinishMergesOrDiscards` | openchain/ledger/statemgmt/state/state.go:95-112 | success hands all the transaction saw to the batch, failure leaves no trace |
| `WorldState.RunRemembers` | openchain/ledger/statemgmt/state/state.go:152-197 | over any transactions of a batch, every changed key keeps the value it had when the batch began |
| `WorldState.PanicsIffNotBracketed` | openchain/ledger/statemgmt/state/state.go:86-112 | any operations in any order panic if and only if they are not bracketed: a begin outside, writes inside, an end under the same uuid |
| `WorldState.CommitKeepsBatchState` | openchain/ledger/statemgmt/buckettree/state_impl.go:235-248 | committing a batch leaves the state it had built up, without the keys set to the empty value |
| `StateTypes.NewDataNodesDelta` | openchain/ledger/statemgmt/buckettree/data_nodes_delta.go:48-66 | the bucket tree takes the previous values backwards and the new ones forwards |
| `StateTypes.NewTrieDelta` | openchain/ledger/statemgmt/trie/trie_delta.go:37-55 | the trie deletes what the delta deletes, in either direction |
| `StateTypes.AddChangesForPersistence` | openchain/ledger/statemgmt/buckettree/state_impl.go:218-248 | the committed state after a delta: changed keys as chosen, empty values deleted, the rest as before |
| `StateTypes.ForwardsTheSame` | openchain/ledger/statemgmt/trie/trie_delta.go:37-55 | forwards, bucket tree and trie commit the same state |
| `StateHistory.RollsBackIff` | openchain/ledger/statemgmt/trie/trie_delta.go:43-51 | a delta committed and rolled back restores the state if and only if it is a bucket tree or the delta deletes no key that was there |
| `StateHistory.TrieLosesDeletedKey` | openchain/ledger/statemgmt/trie/trie_delta.go:43-51 | the bucket tree brings a deleted key back, the trie does not |
| `StateHistory.StoredCommitsTheSame` | openchain/ledger/statemgmt/state_delta.go:331-349 | what storing loses of a delta makes no difference to what it commits |
| `StateHistory.StoredDeltasRollForward` | openchain/ledger/statemgmt/state/state.go:240-301 | the stored deltas of any run of blocks, read back, lead from the state before it to the state after it, with either data structure |
| `StateHistory.StoredDeltasRollBackIff` | openchain/ledger/statemgmt/state/state.go:240-301 | they lead back again if and only if the state is a bucket tree or no key is deleted by the first block of the run that changes it |
| `WorldState.StateObject.Begin` | openchain/ledger/statemgmt/state/state.go:86-92 | opens the transaction, or panics when one is open |
| `WorldState.StateObject.Set` | openchain/ledger/statemgmt/state/state.go:152-197 | records the value and, for a key not yet changed, the committed one; panics outside a transaction |
| `WorldState.StateObject.ApplyChanges` | openchain/ledger/statemgmt/state_delta.go:83-109 | the loop merges the other delta, its values winning and existing previous values staying |
| `WorldState.StateObject.Finish` | openchain/ledger/statemgmt/state/state.go:95-112 | merges or discards and closes; panics on another uuid |
| `BatchExec.ExecuteOne` | openchain/chaincode/exectransaction.go:35-130 | every path through an execution closes its bracket, keeps the changes exactly of a successful non-query, and reports an error otherwise |
| `BatchExec.BatchIsFoldOfSuccesses` | openchain/chaincode/exectransaction.go:135-152 | for every batch: a panic exactly if something writes that is a query or has no uuid, else the batch state is the fold of the successful transactions' writes, just these have a delta hash, and no bracket is open |
| `BatchExec.RunJob` | openchain/chaincode/exectransaction.go:35-130 | begin, writes and finish in place, for each kind of transaction |
| `BatchExec.ExecuteTransactions` | openchain/chaincode/exectransaction.go:135-152 | the error slots, the panic condition and the final batch state of the whole loop |
| `BatchCommit.BatchCommitsItsSuccesses` | openchain/ledger/ledger.go:114-151 | begin, execute and commit append one block with the batch's transactions, metadata, results and time, linked to the last hash, whose state hash is the digest of the fold of the successful transactions, which is also the state committed |
| `BatchCommit.ChainCommitsItsSuccesses` | openchain/ledger/ledger.go:114-151 | for any batches one after the other, every block's state hash and the final state are those of all successful transactions so far |
| `ContainerLocks.StepKeepsInv` | openchain/container/controller.go:199-232 | registering, acquiring and releasing keep counts, shared mutexes and exclusion |
| `ContainerLocks.EveryRunExcludes` | openchain/container/controller.go:341-347 | for any number of threads: no panic, an entry exactly while there are users, counting them, one mutex for all of them, at most one holder |
| `ContainerLocks.WaiterGoesOnIff` | openchain/container/controller.go:199-232 | in every run a waiting thread can go on if and only if nobody holds its container |
| `ContainerLocks.VMController.Register` | openchain/container/controller.go:199-212 | finds or creates the entry and counts this thread, other entries untouched |
| `ContainerLocks.VMController.UnlockContainer` | openchain/container/controller.go:217-232 | unlocks, counts down and removes the entry at zero, or faults |
| `TCertDerive.Scalar` | openchain/crypto/client_tca.go:197-201 | the scalar lies in [1, N-1], the form of Appendix B.4.1 of FIPS 186-4 |
| `TCertDerive.DerivationAgrees` | obc-ca/obcca/tca.go:221-237 | the authority's Q + kG is the client's ((D+k) mod N)G, and differs from Q, for every key pair and index |
| `TCertDerive.IndexInjective` | obc-ca/obcca/tca.go:222-223 | no two certificates share an index, within a set or across nonces |
| `TCertDerive.CreateCertificateSet` | obc-ca/obcca/tca.go:200-257 | issues max(num, 1) certificates, each for its own index |
| `TCertDerive.AcceptedIsSound` | openchain/crypto/client_tca.go:127-261 | whatever is offered, an accepted certificate comes with the secret of its public key, never 0 and never the enrollment key |
| `TCertDerive.HonestAcceptedIff` | openchain/crypto/client_tca.go:203-235 | an honest certificate is accepted if and only if its scalar is not N minus the enrollment secret |
| `TCertDerive.HonestSetAccepted` | openchain/crypto/client_tca.go:299-437 | an honest set without that scalar is accepted whole, in order, each with its secret |
| `TCertDerive.GetTCertsFromTCA` | openchain/crypto/client_tca.go:263-438 | the loop accepts just the certificates that validate, fails if none does, insists on the same derivation key, and panics exactly if the reply is shorter than asked for |
| `TCertPool.EveryRunHandsOutOnce` | openchain/crypto/client_tcert_pool_st.go:35-118 | over any starts, stops, crashes and hand-outs, also from closed clients whose certificates are not stored, nothing is handed out twice, pools fit their arrays, and nothing handed out is in the table or in such a pool |
| `TCertPool.DrawSafeIff` | openchain/crypto/client_tcert_pool_st.go:82-98 | a hand-out from a client, open or closed, leaves every proper run to hand out once if and only if its pool is not stored, or empty, or the certificate is nowhere else |
| `TCertPool.DrawAfterStopSafeIff` | openchain/crypto/client_tcert_pool_st.go:69-98 | right after a stop it does if and only if the certificates could not be stored or there were none |
| `TCertPool.ClosedClientHandsOutTwice` | openchain/crypto/client_impl.go:268-281 | a run in which a closed client and its successor hand out the same certificate |
| `TCertPool.GetNextKeeps` | openchain/crypto/client_tcert_pool_st.go:82-98 | a proper hand-out, with or without a refill, keeps all certificates in one place |
| `TCertPool.StartTakesJustTheValid` | openchain/crypto/client_tcert_pool_st.go:35-67 | a start on a table with a row that scans takes just the certificates that scan and validate, in table order; any other start takes just the accepted ones of a new batch |
| `TCertPool.HandedOutWasVouchedFor` | openchain/crypto/client_tcert_pool_st.go:35-98 | in every run, whatever is handed out was accepted from a batch when issued or validated when loaded |
| `TCertPool.RestartKeepsPool` | openchain/crypto/client_tcert_pool_st.go:35-80 | a stop and a start with everything stored and read back carry the pool over as it was |
| `TCertPool.PoolIsAStack` | openchain/crypto/client_tcert_pool_st.go:82-107 | drawn from until empty, a pool hands out all its certificates, last added first |
| `TCertPool.StartKeeps` | openchain/crypto/client_tcert_pool_st.go:35-67 | loading the table moves certificates to the pool without copying any, whichever rows fail |
| `TCertPool.KeyStore.StoreUnusedTCerts` | openchain/crypto/client_ks.go:96-135 | one row after the other, and after a failing row or commit none of them: all are stored if and only if nothing fails |
| `TCertPool.KeyStore.LoadUnusedTCerts` | openchain/crypto/client_ks.go:162-196 | returns the rows that scan and empties the table, or fails and leaves it |
| `TCertPool.Pool.AddTCert` | openchain/crypto/client_tcert_pool_st.go:100-107 | pushes onto the stack, within the array |
| `TCertPool.Pool.GetTCertsFromTCA` | openchain/crypto/client_tca.go:299-437 | a refill of an empty pool never outgrows the array |
| `TCertPool.Pool.StartUp` | openchain/crypto/client_tcert_pool_st.go:35-67 | loads the table or refills, as the start step says, within the array |
| `TCertPool.Pool.GetNextTCert` | openchain/crypto/client_tcert_pool_st.go:82-98 | the hand-out step of the machine on the array, also after the client was closed |
| `TCertPool.Pool.ShutDown` | openchain/crypto/client_tcert_pool_st.go:69-80 | the stop step of the machine: stores exactly the certificates left, and leaves the pool as it is |
| `BlockRange.Range` | protos/openchain.pb.go:442-447 | the promised numbers start at start and end at end |
| `BlockRange.RangeContents` | protos/openchain.pb.go:442-447 | they ascend or descend by one, both ends included |
| `BlockRange.SendBlocksCollectsIff` | openchain/peer/handler.go:427-445 | the loop of sendBlocks ends, and then with the promised numbers, if and only if an upward range does not end at the last 64-bit number and a downward one is not from it to 0 |
| `BlockRange.SendStateDeltasCollectsIff` | openchain/peer/handler.go:656-671 | that of sendStateDeltas if and only if an upward range does not end at the last 64-bit number and a downward one does not end at 0 |
| `BlockRange.UpToFailureIsCut` | openchain/peer/handler.go:444-462 | what is sent is the prefix up to the first block that cannot be fetched or sent |
| `BlockRange.CollectNums` | openchain/peer/handler.go:656-672 | the loop in 64-bit arithmetic collects the range, wherever it ends |
| `BlockRange.SendRange` | openchain/peer/handler.go:428-463 | sends the range in order, cut at the first failure |
| `SnapshotStream.EveryRunPlacesAPrefix` | openchain/peer/handler.go:474-604 | over any requests, full channels and concurrent senders, what enters the channel of an id is a prefix of what was sent for it |
| `SnapshotStream.TerminatedMeansAllSent` | openchain/peer/handler.go:556-604 | if the terminator is in the channel, all that was sent came before it, numbered from 0 without gaps; after at least one delta these are the whole snapshot if and only if the terminator's number is how many there are, without any its number is 1 |
| `SnapshotStream.NoDeltasTellNothing` | openchain/peer/handler.go:570-604 | runs with an empty snapshot and with a failed first delta in which the receiver gets the same messages |
| `SnapshotStream.RoomKeepsChannel` | openchain/peer/handler.go:515-553 | as long as no arrival finds the channel full and nothing is requested, the id stays and the channel holds what was placed and not consumed |
| `SnapshotStream.RoomyStreamArrivesWhole` | openchain/peer/handler.go:515-604 | then, for any interleaving, once all is sent and nothing is in flight, the whole snapshot and its end are in the channel |
| `SnapshotStream.IdMovesOnlyWhenFull` | openchain/peer/handler.go:541-547 | between requests the id moves on only when an arrival finds the channel full |
| `SnapshotStream.WholeSnapshotCanArrive` | openchain/peer/handler.go:474-604 | for every snapshot and capacity, a run with one request that places the whole snapshot under its id |
| `SnapshotStream.SyncStateSnapshotRequestHandler.RequestStateSnapshot` | openchain/peer/handler.go:474-492 | a request carries an id no earlier request had |
| `SnapshotStream.SyncStateSnapshotRequestHandler.BeforeSyncStateSnapshot` | openchain/peer/handler.go:515-553 | places a message of the current id, gives the channel up when it is full, ignores any other |
| `SnapshotStream.SendStateSnapshot` | openchain/peer/handler.go:556-604 | the loop emits numbered deltas up to a failure and then the terminator, as a sender of the machine may |
| `PbftQuorum.QuorumsShareCorrectIff` | openchain/consensus/obcpbft/pbft-core.go:376-381 | for N >= 3f+1 any two quorums share a correct replica if and only if N+f is odd |
| `PbftQuorum.AllCorrectReplicasQuorumIff` | openchain/consensus/obcpbft/pbft-core.go:383-386 | the quorum is N-f if and only if N is 3f+1 |
| `PbftCore.BackedAgree` | openchain/consensus/obcpbft/pbft-core.go:411-436 | correct replicas with a certificate for the same number have it for the same request, when quorums intersect or nobody may be faulty |
| `PbftCore.RunKeepsInv` | openchain/consensus/obcpbft/pbft-core.go:574-860 | over every run, with faulty replicas sending anything under their names, certificates rest on messages really sent, one prepare per replica and one assignment per number, and whatever was executed keeps its certificate |
| `PbftCore.DecisionRestsOnCommits` | openchain/consensus/obcpbft/pbft-core.go:438-459 | in every run, once a correct replica has committed or executed a number, at least (N+f+1)/2 less the faulty, hence f+1 correct replicas have sent a commit for it on a certificate, all for the same request where quorums intersect |
| `PbftCore.OnlyValidatedRequests` | openchain/consensus/obcpbft/pbft-core.go:670-686 | in every run, what a correct replica prepares, commits or executes is the null request or one it has validated |
| `PbftCore.PrimaryAssignsOnce` | openchain/consensus/obcpbft/pbft-core.go:588-616 | in every run, a correct primary gives a number to one request and a request one number |
| `PbftCore.OnePreparePerNumber` | openchain/consensus/obcpbft/pbft-core.go:690-703 | whatever pre-prepares arrive, a replica sends at most one prepare for a number |
| `PbftCore.OneCommitPerNumber` | openchain/consensus/obcpbft/pbft-core.go:730-750 | whatever prepares arrive, it sends at most one commit for a number |
| `PbftNormal.RequestsGetExecuted` | openchain/consensus/obcpbft/pbft-core.go:574-860 | for every N >= 3f+1 and every request, a run with f silent replicas after which every correct replica has executed it |
| `PbftSplit.Split` | openchain/consensus/obcpbft/pbft-core.go:438-459 | for every N >= 3f+1 with f >= 1 and N+f even, a run in which correct replicas prepare, commit and execute different requests as number 1 |
| `PbftSplit.AgreementIff` | openchain/consensus/obcpbft/pbft-core.go:379-860 | for every N >= 3f+1, and for what is prepared, committed and executed alike: agreement over all runs, primaries and faulty sets holds if and only if f is 0 or N+f is odd |
| `PbftObject.HasVote` | openchain/consensus/obcpbft/pbft-core.go:719-724 | the duplicate check finds a vote exactly if the replica has voted |
| `PbftObject.CountVotes` | openchain/consensus/obcpbft/pbft-core.go:421-436 | the counting loop counts the replicas that voted for the digest |
| `PbftObject.PbftReplica.IsPrepared` | openchain/consensus/obcpbft/pbft-core.go:388-436 | decides the prepared predicate of the model: a known request, pre-prepared, with enough prepares |
| `PbftObject.PbftReplica.IsCommitted` | openchain/consensus/obcpbft/pbft-core.go:438-459 | decides the committed predicate of the model |
| `PbftObject.PbftReplica.RecvPrePrepare` | openchain/consensus/obcpbft/pbft-core.go:644-706 | keeps the first digest, refuses a request that is not genuine, and sends at most one prepare |
| `PbftObject.PbftReplica.RecvPrepare` | openchain/consensus/obcpbft/pbft-core.go:708-750 | counts a replica's first prepare and sends at most one commit |
| `PbftObject.PbftReplica.RecvCommit` | openchain/consensus/obcpbft/pbft-core.go:752-778 | counts a replica's first commit |
| `PbftObject.PbftReplica.ExecuteOutstanding` | openchain/consensus/obcpbft/pbft-core.go:794-860 | executes committed requests in the order of their numbers without a hole, until the next number is not committed |

## Left out

- `LockstepRuns.EveryRunInLockstep`: covers chaincodes that do not invoke each other, ledger requests that succeed, no execution timeouts, and one executor of transactions; outside these the code does not keep the machines together, as `ReadErrorBreaksLockstep` and `WriteErrorBreaksLockstep` show for ledger errors.
- `LockstepRuns.EveryRunInLockstep`: a payload that does not unmarshal ends an execution like a failing chaincode does; the two are one step here.
- `AsyncIndexSpec.IndexIsAlwaysAPrefix`: grants that block 0 is indexed before a crash and that catch-up writes succeed; `RestartIndexesAllIff` shows that exactly this is needed.
- `TCertDerive.GetTCertsFromTCA`: the signature checks after the comparison of public keys are taken to pass when the keys match.
- `SnapshotStream.EveryRunPlacesAPrefix`: correlation ids do not wrap around after 2^64 requests.
- `PbftSplit.AgreementIff`: one view with a fixed low watermark; view changes, checkpoints, state transfer and garbage collection of certificates are not modelled, and so neither are the sets by which a view change remembers what was prepared.
- `RangePaging.Drain`: the error replies to a decryption or marshalling failure while a page is filled, and the explicit close request, are not modelled.
- `PutRawBlock`, which may store blocks out of order and never moves the last hash.
- The stop of the asynchronous indexer and the synchronous indexer's trivial wrappers.
- State-delta replies between peers: they carry no correlation id, only their range loop is modelled.
- The nodes and hashes of the bucket tree and the trie: the state is a map and its digest a function of it.  A trie read of an absent key that other keys extend yields an empty value instead of none, which makes no difference once committed.
- `DeltaCodec.Marshal`: lengths are those of slices and maps in memory, below 2^63; the size hint a decoded count gives to map allocation is not modelled.
- The marshalled form of messages other than state deltas, and secrecy of any kind.
- Starting containers, gRPC streams, configuration, logging, the REST interface and the command line.
- The event hub, membership services other than the certificate derivation, and the multi-threaded certificate pool, which is not used.
- Queues, counters and accessors that would only add easy members.
