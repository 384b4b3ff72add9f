# Token bridge monitor: a Dafny model

The monitor follows the two contracts of a token bridge, one on its home chain and one on its foreign
chain. For each it fetches the logs of the bridge contract, of its validator contract and, in
erc-to-native mode, of the configured tokens, saves them in Postgres, and hands them in order to event
handlers that fill the message tables. It is restarted at any time, its node and its database fail at
any time, and its goroutines share one cursor. This project models that machinery and proves what it
guarantees.

`dafny verify dfyconfig.toml` checks everything.

## How the model is laid out

| files | content |
|---|---|
| `Entities`, `Sequences`, `LogOrder` | logs, events, configuration values; facts about sequences and sorting |
| `Chains` | a chain as a fixed function from block number to logs; which logs are relevant; `Between`, the one unchunked ordered query everything is compared with |
| `BlockRanges`, `Fetching` | chunking, batching, building the queries of a range and merging the answers, as the loops they are |
| `Decoders`, `Correlation` | the message and calldata layouts on bytes, and the hashes that link executions and signatures to requests |
| `LogsTable`, `Tables`, `Handlers` | the logs table; the message tables and their upsert policies; what each handler writes |
| `EventHandlers`, `Storage`, `ContractMonitors` | classes: the handlers, the database and the contract monitor as they run, with statements that may fail before or after they take effect |
| `Queues`, `Pipeline`, `PipelineInvariant`, `PipelineSteps`, `PipelineSafety`, `PipelineRuns` | the three goroutines as a step system, its inductive invariant, and the properties of all its runs |
| `Witnesses`, `ConfirmedBlocks`, `EarlyLogs`, `FallingHeads` | runs that show what the pipeline can come to; that it stays behind the confirmed head; what heads that fall can do, to the first blocks and to the validators table |
| `DueRows` | the rows each log is due, said of the events on the chain alone: a second definition, in the terms of the contracts, that what the handlers write is proved equal to |
| `CrashEquivalence`, `ChainTables`, `SentMessages` | the message tables after any two runs of the two sides: equal to those of one undisturbed pass, exactly the rows that the two chains are due, and at every moment without a sent row that lacks its message |
| `Validators`, `ValidatorReplays`, `SkippedSessions`, `ValidatorSides`, `RunSessions`, `ValidatorRuns` | the validators table, whose upsert undoes removals, under interruptions, replays and skipping, shared by both sides, and after runs of the pipeline |
| `Alerts`, `TrueAlarms` | the minimum processed time and the "unknown message" queries; when they report a row, in terms of the tables and of the chains |
| `Reprocessing` | the manual reprocessing of a block range |
| `Configs`, `Presenters` | the configuration's init methods; the list of messages that lack signatures |

A run of the pipeline is any sequence of enabled steps from an empty database: polls with heads that move
back, failures of the node, database statements that fail before or after they take effect, the read of
the two cursor fields and the write of the row as separate steps of both goroutines that write it,
cancellation, a crash and restart at any point, cursor statements that land long after they were sent,
even by a process that is dead by then, other monitors that save logs of their own contracts, and manual
runs that fetch and handle processed blocks again and write back old cursor rows.

The methods of `ContractMonitors.ContractMonitor` keep the fields of the original and are shown to take
only steps of that system (`Reaches`), besides saying what they compute. Each method runs undisturbed;
the interleaving of the goroutines is what `Pipeline` adds.

## Assumptions

- A chain never changes at or below the confirmed head, and a log answer of a node is complete for its query.
- The head is at least the number of confirmations (the source subtracts without a check), and below
  4294967295, the block number of the sentinel log. The start block is at least 1.
- Bridge, validator and token addresses are pairwise distinct, and each token has its start block at or
  before its end block.
- Only where the content of message rows matters: on the foreign side an explicit erc-to-native request is
  made while some token is live (`PipelineInvariant.RequestsLive`). `Handlers.ChainDictatesExactly` shows
  that this is needed.
- In the logs table, logs of these contracts come from this monitor.
- A statement issued on a cancelled context fails.
- The hash has no collision among the byte strings that are hashed for logs of the bridge
  (`Correlation.NoCollisions`); nothing is asked of it elsewhere. A transaction hash determines the
  transaction, and a transaction is in one block.

## What the proofs found in the code

- When the head a node reports falls, the block fetcher starts its next round right above that lower head,
  so ranges are fetched again. Nothing is lost, and first handlings from the start block on stay in chain
  order. But if the confirmed head falls below the block before the start block, logs from before the start
  block are fetched and handled as well (`EarlyLogs.EarlyLogsExactly` says for which heads).
- After such a fall a restart goes on behind blocks that were only partly handled again. Message tables do
  not suffer. The validators table survives every such run exactly when no validator has two events in the
  history (`FallingHeads.FallingHeadsExactly`); manual runs and late cursor statements change nothing about
  that. Otherwise a fall and a restart leave a row that is not the one the history dictates
  (`FallingHeads.FallingHeadBreaks`).
- Replaying validator events restores the table exactly when, for each validator, the replayed end of the
  history starts with a removal or has at most one addition. Otherwise a removal can end the wrong row
  (`ValidatorReplays.ReplayIsHarmlessExactly`).
- After a cancellation a batch that was not handled is still recorded in memory, whatever its block
  (`Witnesses.MemoryRunsAhead`). No row carries it (`PipelineSafety.NoWriteAfterCancel`).
- The v5 data offset is computed on 8 bits, so chain ids of more than 176 bytes together move it
  (`Decoders.V5UndoesEncoder`).
- An empty list of addresses is no condition in the logs filter. With no live token, a transfer of any other
  contract in the same transaction decides the sender of an explicit request, if another monitor has saved
  it (`Handlers.ChainDictatesExactly`).
- The minimum processed time ignores a cursor whose block has no timestamp, which is where each cursor
  stands until its first batch is processed, and a side without a cursor row. Requests of that side are then
  reported as unknown (`Alerts.SilentSideExactly`). It also compares addresses with `>=`, so that cursors of other bridges can
  lower it (`Alerts.MinimumOfCounted`).
- The wait loop of a manual run can take an empty range channel for the end before anything was queued
  (`Reprocessing.MayReturnAtOnce`), and a manual run can write an old cursor over a newer one exactly when its
  range is not empty and reaches the last processed block (`Reprocessing.RowUntouchedExactly`).

## Model

| member | source | states |
|---|---|---|
| PipelineSafety.CursorRowIsSafe | monitor/contract_monitor.go:513-540 | In every reachable state every cursor row ever written has processed ≤ fetched, all relevant logs from the start block to processed handled, all to fetched saved |
| PipelineSafety.StepOk | monitor/contract_monitor.go:130-436 | The invariant (safe database, safe cursors, gapless queues) survives every step of every goroutine, failures, cancellation, crash and manual runs |
| PipelineSafety.FirstHandlingIsChainOrder | monitor/contract_monitor.go:459-492 | The first successful handlings of distinct logs are a prefix of the chain's logs from the start block on, in strict (block, index) order with none skipped |
| PipelineSafety.MemoryIsSafe | monitor/contract_monitor.go:513-540 | Until a cancellation the cursor in memory is as safe as the rows |
| Witnesses.MemoryRunsAhead | monitor/contract_monitor.go:385-436 | For any log from the start block on, a run whose context is cancelled early ends with a processed block in memory that covers it, while it was never handled |
| PipelineSafety.NoWriteAfterCancel | monitor/contract_monitor.go:385-436 | From a cancellation on no statement is sent, and the row only changes to a cursor sent before or to the first one, all of them safe |
| ConfirmedBlocks.OnlyConfirmedBlocks | monitor/contract_monitor.go:216-242 | In every run, crashes and manual steps included, a log from the start block on is handled and a block from there on is recorded only under a head that is the required number of confirmations above it |
| EarlyLogs.EarlyLogsExactly | monitor/contract_monitor.go:216-242 | Runs whose heads are at or above a bound never handle a log from before the start block, exactly when no block between that bound and the start block can be entered |
| EarlyLogs.NothingEarly | monitor/contract_monitor.go:216-242 | With heads that leave the confirmed block at or above the one before the start block, only logs from the start block on are attempted |
| EarlyLogs.EarlyBlockEntered | monitor/contract_monitor.go:222-235 | Two polls, of the block before k and of k, make a run handle a log of block k, for every k before the start block |
| PipelineSafety.RecoveryIsExact | monitor/contract_monitor.go:189-214 | After a restart the recovery query hands out exactly the ordered relevant logs between processed and fetched, and submits what fetching would |
| PipelineSafety.WholeBlockVisible | monitor/contract_monitor.go:330-346 | When a handler runs, every relevant log of its block is saved; where requests are made while a token is live, its writes are a function of the chain alone |
| PipelineSafety.DrainedMeansProcessed | monitor/contract_monitor.go:216-242 | Once all queues are empty and the goroutines idle, every block scheduled so far is processed, whatever heads were reported |
| PipelineSteps.RecoveryFinds | config/config.go:188-201 | Token addresses live somewhere in the range, plus bridge and validators, select exactly the chain's relevant logs of the range from the table |
| PipelineSteps.PredecessorsHandled | monitor/contract_monitor.go:385-436 | Before a log is handled, every earlier relevant log from the start block on has been |
| PipelineSteps.RecordFetchedOk | monitor/contract_monitor.go:513-525 | Moving the fetched block in memory keeps the invariant: no block below it is unsaved, also for ranges fetched again |
| PipelineInvariant.HandledAsChainSays | monitor/handlers.go:134-190 | With whole blocks saved, what a handler writes does not depend on what else is in the logs table |
| PipelineRuns.StaysInv | monitor/contract_monitor.go:130-140 | Whatever steps lead from a good state, the state reached is good |
| CrashEquivalence.CrashesLeaveNoTrace | monitor/handlers.go:37-545 | Any runs of both monitors with heads that stay, caught up with blocks n and m, interleaved in the database in any way, leave the message tables of one undisturbed pass over both |
| ChainTables.PendingMessagesExactly | repository/postgres/messages.go:71-88 | After any two caught-up runs a message is pending exactly if an AMB request log of either chain up to there decodes to it and no execution log of either chain names its id; an erc-to-native one, exactly if a log requests it and nothing was executed under the hash of its recipient, value and transaction (and contract, on the foreign chain) |
| ChainTables.TablesExactly | monitor/handlers.go:37-545 | After any two caught-up runs the message tables hold exactly the rows that the events of the two chains are due, under their own keys |
| ChainTables.EventRowsExactly | monitor/handlers.go:276-512 | There each request, signature, collection, execution and information log of its mode and side has the row with the fields of its event, and no log has another |
| SentMessages.SentMessagesExist | monitor/handlers.go:37-70 | At every moment of any runs of both monitors, each row that says something was sent has its message or information request in the tables |
| DueRows.MadeIsDue | monitor/monitor.go:64-102 | What the handlers write for a log of the chain is exactly what its event is due in its mode and on its side |
| DueRows.ExplicitRequestSender | monitor/handlers.go:150-168 | An explicit foreign request is stored with the sender of the last transfer of its own transaction that moves its value to the bridge in a live token, and with its recipient if there is none |
| CrashEquivalence.SameAsOnePass | monitor/contract_monitor.go:385-436 | A run caught up with block n has made exactly the upserts of one pass to n |
| CrashEquivalence.InterleavingIsInvisible | monitor/monitor.go:104-109 | Two interleavings of the writes of the two sides give the same tables, hence the same pending messages |
| CrashEquivalence.BridgeAgrees | monitor/handlers.go:37-545 | No two upserts that logs of either side ask for want different rows under one key |
| CrashEquivalence.TransferIsRequestExactly | monitor/handlers.go:82-106 | A token transfer yields a message exactly when no token of its address blacklists its sender and its transaction has no explicit request |
| CrashEquivalence.MessageRowsAreTheRequests | monitor/handlers.go:134-190 | Once a log is handled, in any run, the rows its event is due are in the tables, with the sender its transaction dictates |
| Tables.OrderIsIrrelevantExactly | repository/postgres/erc_to_native_messages.go:20-35 | Order and repetition of upserts never matter exactly when no two of them clash; otherwise two arrangements differ |
| Tables.RowIsFirstWithLastSender | repository/postgres/erc_to_native_messages.go:20-35 | Whatever the upserts, clashing or not, the row under a key is the first one written there, with the sender of the last one if it is an erc-to-native message |
| Tables.LastSenderWins | repository/postgres/erc_to_native_messages.go:24-24 | After one more upsert of an erc-to-native message its row has the sender of that upsert |
| Tables.AgreeingResult | repository/postgres/executed_messages.go:20-35 | Without clashes the tables hold exactly the rows asked for |
| Handlers.EffectsOfChain | monitor/handlers.go:92-106 | Once a block is saved completely, the filtered searches of its handlers find the same logs in any table |
| Handlers.ChainDictatesExactly | monitor/handlers.go:150-168 | Where another contract logs a transfer to the bridge in a request's transaction, the request's rows are a function of the chain exactly when some token is live at its block |
| Handlers.NoLiveTokenNoAddressFilter | repository/postgres/logs.go:68-116 | With no live token the address list is empty and a transfer of any contract passes the filter |
| Handlers.LiveTokensAre | config/config.go:192-201 | The addresses are those of the tokens whose lifetime meets the range |
| BlockRanges.SplitBlockRange | monitor/types.go:22-36 | The 64-bit loop stops and returns the chunks of the range, for any bounds that do not overflow |
| BlockRanges.ChunksPartition | monitor/types.go:22-36 | Chunks start and end with the range, follow one another without gap or overlap, and are not oversized |
| BlockRanges.SplitLogsInBatches | monitor/types.go:38-53 | On every input, the loop returns the runs of logs that the sentinel closes |
| BlockRanges.SentinelExact | monitor/types.go:38-53 | The sentinel closes every batch exactly when the last one starts below 4294967295 |
| BlockRanges.SubmissionsFlatten | monitor/contract_monitor.go:349-368 | The batches submitted hold every log once and in order |
| Fetching.BuildFilterQueries | monitor/contract_monitor.go:272-301 | The loop builds one query for the contracts and one clipped query for each live token |
| Fetching.QueriesClipped | monitor/contract_monitor.go:280-298 | No query is inverted or leaves the range, and token queries stay within the token's lifetime |
| Fetching.QueriesSelect | monitor/contract_monitor.go:272-301 | A log of the range is relevant exactly when one of the queries selects it |
| Fetching.QueriesDisjoint | monitor/contract_monitor.go:272-301 | No two queries of a range select the same log |
| Fetching.TryToFetch | monitor/contract_monitor.go:303-324 | The merged and sorted answers are the unchunked query of the range; the attempt fails exactly when some query fails |
| Fetching.ChunkedFetchIsOneQuery | monitor/contract_monitor.go:303-368 | Splitting, fetching, sorting and batching chunk by chunk hands out one unchunked query, each log once |
| LogOrder.SortSorts | monitor/contract_monitor.go:321-324 | Sorting by block and index orders logs and keeps exactly their elements |
| Queues.SubmissionsFeed | monitor/contract_monitor.go:349-368 | What is submitted for a range goes on from the blocks before it without a gap and reaches its end, by whole blocks |
| Queues.BatchesOfBlocks | monitor/types.go:38-53 | Batches of an ordered query are the blocks with relevant logs, complete and ascending |
| LogsTable.LogsRepo.Ensure | repository/postgres/logs.go:22-48 | New keys get rows, old rows stay as they are, and every log gets the id of the row of its key |
| LogsTable.LogsRepo.FindLogs | repository/postgres/logs.go:68-116 | The search returns exactly the matching logs in (chain, block, index) order |
| ContractMonitors.ContractMonitor.Start | monitor/contract_monitor.go:73-140 | Starting on any safe database gives the boot state with queues set up and the invariant |
| ContractMonitors.ContractMonitor.PollHead | monitor/contract_monitor.go:216-242 | One round queues the chunks up to the confirmed head, moves start right above it, and leaves the rest alone |
| ContractMonitors.ContractMonitor.RecordHeadBlockNumber | monitor/contract_monitor.go:494-511 | The head in memory never goes back, and isSynced follows it when it moves |
| ContractMonitors.ContractMonitor.LoadUnprocessedLogs | monitor/contract_monitor.go:189-214 | Retried until it succeeds, it submits what fetching the range again would |
| ContractMonitors.ContractMonitor.FetchNextRange | monitor/contract_monitor.go:244-270 | The next range is taken and its logs submitted, once, however many attempts it takes, or nothing of it is |
| ContractMonitors.ContractMonitor.TryToFetchLogs | monitor/contract_monitor.go:303-347 | An attempt saves, moves the cursor and submits, or leaves the channel as it was; only pipeline steps are taken |
| ContractMonitors.ContractMonitor.SubmitLogs | monitor/contract_monitor.go:349-368 | The channel grows by the batches of the logs and the closing empty batch, in order |
| ContractMonitors.ContractMonitor.RecordFetchedBlockNumber | monitor/contract_monitor.go:513-525 | A lower block changes nothing; another moves the cursor, and success means the row is the cursor |
| ContractMonitors.ContractMonitor.RecordProcessedBlockNumber | monitor/contract_monitor.go:527-540 | The same for the processed block; under a cancelled context the row does not move |
| ContractMonitors.ContractMonitor.TryToProcessLogsBatch | monitor/contract_monitor.go:459-492 | Success means every log of the batch could be parsed and is handled, a failure starts the batch over |
| ContractMonitors.ContractMonitor.ProcessNextBatch | monitor/contract_monitor.go:370-436 | When it is done and not cancelled, the batch is handled, its block has a timestamp and the row covers it; cancelled before, the row stays |
| EventHandlers.BridgeEventHandler.Handle | monitor/monitor.go:64-102 | A log that cannot be parsed is an error; each event goes to its handler, whose upserts, complete or cut off by a failure, are those the effects of the log list |
| EventHandlers.BridgeEventHandler.HandleErcToNativeTransfer | monitor/handlers.go:72-132 | The blacklist loop, the search for explicit requests and the upserts do what the effects of a transfer say |
| EventHandlers.BridgeEventHandler.HandleErcToNativeUserRequestForAffirmation | monitor/handlers.go:134-190 | The loop over the transfers of the transaction leaves the sender of the last one of the requested value |
| EventHandlers.BridgeEventHandler.HandleErcToNativeUserRequestForSignature | monitor/handlers.go:227-274 | The sender is the transaction's if it carries the value, the recipient otherwise; a node failure writes nothing |
| EventHandlers.BridgeEventHandler.HandleValidatorRemoved | monitor/handlers.go:533-545 | Some active row of the validator is ended by this log, and with none nothing changes |
| Storage.Database.EnsureCursor | repository/postgres/logs_cursors.go:20-38 | The whole row is overwritten or nothing is, and nothing on a cancelled context |
| Storage.Database.HandleLog | monitor/contract_monitor.go:466-490 | The message tables stay the fold of all upserts made so far, and the validators table one that the validator statements made so far may leave |
| Decoders.V4UndoesEncoder | monitor/decoders.go:15-29 | Decoding returns every encoded field for all v4 messages; the data keeps its type byte |
| Decoders.V5UndoesEncoder | monitor/decoders.go:30-43 | Decoding returns every encoded field, and the data exactly when the chain ids have at most 176 bytes together |
| Decoders.LegacyUndoesEncoder | monitor/decoders.go:46-64 | Decoding returns every field, the gas limit modulo 2^32, and panics exactly on a data type other than 0 |
| Decoders.CalldataUndoesEncoder | monitor/decoders.go:66-71 | For every id, status, result and placement whose offsets fit in 32 bits the encoded result comes back |
| Correlation.ExecutionLinks | monitor/handlers.go:332-405 | An execution is stored under a request's hash exactly when recipient, value and transaction agree and, home to foreign, the foreign contract |
| Correlation.NeverOwnRequest | monitor/handlers.go:227-242 | The 84-byte and 104-byte pre-images never collide: no execution links to a request of its own side |
| Correlation.SignatureLinks | monitor/handlers.go:294-312 | A signature links to a request exactly when its transaction's calldata names recipient, value and transaction |
| Correlation.CalldataIsPreImage | monitor/handlers.go:304-309 | Calldata from byte 16 on is the pre-image of the request |
| Alerts.NoFalseAlert | monitor/alerts/db_alerts_provider.go:61-128 | Whatever both monitors went through, a row is reported as unknown only if no request with its key, from the start block of its side on, is as old as the row; only that side needs a cursor row with a timestamp |
| Alerts.SilentSideExactly | monitor/alerts/db_alerts_provider.go:61-128 | While one monitor has attempted nothing yet, an old enough signature or execution of one of its side's requests is reported exactly when that side has no cursor row with a timestamp |
| TrueAlarms.ReportedExactly | monitor/alerts/db_alerts_provider.go:61-128 | Each of the alerts reports the row of a handled log exactly if the log is of a chain it looks at, at or above the start block given for it, dated at or before the minimum, and no message in the tables has its key |
| TrueAlarms.AlarmsAreTrue | monitor/alerts/db_alerts_provider.go:61-128 | Once both monitors have caught up, exactly if no log of either chain up to there requests what the reported log is about |
| Alerts.OldEnoughIsHandled | monitor/alerts/db_alerts_provider.go:34-59 | With the processed block timestamped, every log of the side not younger than the minimum has been handled |
| Alerts.MinimumOfCounted | monitor/alerts/db_alerts_provider.go:34-59 | The minimum is the least time of the timestamped cursors of the two chains whose address is, as a number, not below that of the bridge there |
| Alerts.OtherSideAlone | monitor/alerts/db_alerts_provider.go:49-55 | A side without a cursor row, or whose cursor has no timestamp, does not count: the minimum is that of the other side |
| Witnesses.BlindSpotIsReachable | monitor/contract_monitor.go:130-140 | Such a cursor row is written before the first batch is processed, in every good world |
| Validators.ReplayLeaves | repository/postgres/bridge_validators.go:20-57 | A complete or interrupted replay of a mild window leaves a table to go on from, whichever rows are picked |
| Validators.ValidatorsRepo.GetActiveValidator | repository/postgres/bridge_validators.go:37-57 | Some active row of the validator, and none only if there is none |
| ValidatorRuns.ValidatorsAfterRuns | monitor/handlers.go:520-545 | After steady runs of both monitors whose calls reached the one table in any interleaving, with mild windows, the rows of each chain are those its history dictates |
| ValidatorRuns.RunHasSessions | monitor/contract_monitor.go:130-140 | Every run without manual steps whose heads do not fall reaches the validators table in sessions that never skip a log |
| FallingHeads.FallingHeadsExactly | monitor/contract_monitor.go:216-242 | Whatever falling heads (from the start block on), restarts, manual steps and late statements they had, all runs that end with a history processed leave the table it dictates exactly when no validator has two events in it; the same holds of the runs without manual steps alone |
| FallingHeads.FallingHeadBreaks | monitor/contract_monitor.go:222-235 | For any history and any log of it that spoils, a head that falls and one restart right after that log leave a table the history does not dictate, for every choice of rows |
| FallingHeads.BothSidesSettled | monitor/monitor.go:104-109 | Where no validator has two events, the rows of each chain are those its history dictates after any such runs of both monitors, their calls interleaved in any way |
| SkippedSessions.SkippingIsHarmlessExactly | monitor/handlers.go:520-545 | Handling any stretch of a history again and going on behind all of it is harmless exactly when no validator has two events in it |
| SkippedSessions.SpoiltAfter | monitor/handlers.go:533-545 | An ended addition, or a first removal before an addition in force, handled last in such a stretch leaves a wrong table |
| SkippedSessions.SparseFolds | monitor/handlers.go:520-545 | Where no validator has two events, handling the logs of a history in any order and any number of times gives the table it dictates |
| ValidatorSides.StepOnSides | repository/postgres/bridge_validators.go:37-57 | Handling a log leaves the rows of the other chain alone and does to its own chain's rows what it would do without the others |
| ValidatorSides.PlayedOnSides | monitor/monitor.go:104-109 | In the shared table the rows of a chain are those its own calls have left, however the two monitors interleave |
| ValidatorSides.BothSidesFold | monitor/handlers.go:520-545 | Any interleaving of the sessions of the two sides leaves the two folds |
| ValidatorReplays.SessionsFold | monitor/handlers.go:520-545 | Any interruptions and replays of mild windows end with the table the history dictates |
| ValidatorReplays.ReplayIsHarmlessExactly | monitor/handlers.go:520-545 | Replays of the end of a history are harmless for every choice of rows exactly when that end is mild |
| ValidatorReplays.NotMildBreaks | repository/postgres/bridge_validators.go:24-24 | Otherwise an interrupted replay leaves a row active that the history ended |
| ValidatorReplays.FirstTimeFolds | monitor/handlers.go:520-545 | Handling an alternating history once gives the table it dictates |
| ValidatorReplays.FoldUnique | repository/postgres/bridge_validators.go:20-35 | The history dictates one table: every schedule that ends as dictated ends with the same rows |
| ValidatorReplays.ActiveRowsAreInForce | repository/postgres/bridge_validators.go:59-78 | A validator currently added has exactly one active row, that of its last addition; any other has none |
| ValidatorReplays.EndedRowsNameTheirRemoval | monitor/handlers.go:533-545 | Every other row names the removal that ended it, the next event of its validator |
| Reprocessing.RowOnlyWrittenBack | monitor/contract_monitor.go:142-187 | If a manual call changes the persisted row at all, it writes back the cursor it started from, and only for a range that is not empty and reaches the last processed block |
| Reprocessing.RowUntouchedExactly | monitor/contract_monitor.go:513-540 | No run of a manual call changes the row exactly when its range is empty or ends before the last processed block |
| Reprocessing.RowMovesBack | monitor/contract_monitor.go:513-540 | For every range that does reach it, however many chunks it has, the call can overwrite any cursor the running monitor has written meanwhile |
| Reprocessing.ReturnsWhenAllIsHandled | monitor/contract_monitor.go:142-187 | No manual call moves the cursor in memory, and with the closing nil queued before the emptiness test it returns nil only when its range is handled |
| Reprocessing.MayReturnAtOnce | monitor/contract_monitor.go:166-173 | Without that it can return nil with nothing handled, for every range |
| Configs.BridgeConfiguration.Init | config/config.go:126-165 | The errors in their order; an accepted configuration has tokens exactly on the foreign side of erc-to-native bridges, with their block numbers filled in, positive range sizes, and alerts that start at the later of the block given and that of the side |
| Configs.EstablishedIsValid | config/config.go:135-184 | With the defaults filled in for its tokens, an accepted configuration is one the pipeline works on exactly when start blocks are positive, addresses distinct, and the block numbers given in order |
| Configs.BridgeSideConfig.Init | config/config.go:167-186 | Each token is filled in, in place: one given without end block is alive at every block from its start (the side's, if none was given) on, and what was given is kept |
| Configs.TokenLogsSeen | config/config.go:176-184 | A log of a configured token with the bridge as third topic is one the pipeline fetches exactly if it is in the token's lifetime as given, which has no end if none was given |
| Configs.BridgeSideConfig.ErcToNativeTokenAddresses | config/config.go:192-201 | The loop lists the addresses of the live tokens in their order |
| Presenters.MakeSignersMap | presenter/presenter.go:357-374 | A validator is in the set of a message exactly when a saved or handed-in signature says so |
| Presenters.FindUnsigned | presenter/presenter.go:329-347 | Exactly the messages that fewer active validators than required have signed are listed, once each, with who signed and who did not |
| Presenters.EveryValidatorListed | presenter/presenter.go:331-338 | Every active validator is listed once, as signer or as missing |

## Left out

- ContractMonitors.ContractMonitor.LoadUnprocessedLogs: the retry loops stop after a given number of attempts, standing for the cancellation that ends them in the source.
- ContractMonitors.ContractMonitor.PollHead: the channels are unbounded, so a goroutine never waits for room in one; every schedule of the bounded ones is a schedule of these.
- CrashEquivalence.CrashesLeaveNoTrace: compares rows without created_at, updated_at and serial ids, and histories that break no unique index other than the keys of the upserts; where one is broken the source repeats the batch for ever.
- ValidatorRuns.RunHasSessions: runs with manual steps, with heads that fall, or with cursor statements of a dead process that land late are not taken apart into sessions; for all of them together `FallingHeads.FallingHeadsExactly` says for which histories the table comes out right.
- FallingHeads.FallingHeadsExactly: heads that let blocks from before the start block in (`EarlyLogs.EarlyLogsExactly`) are excluded, and so are histories with a log whose handler cannot succeed, behind which no run gets.
- Reprocessing.ReturnsWhenAllIsHandled: failed attempts are steps not taken, and the context is not cancelled during the call.
- ChainTables.PendingMessagesExactly: pending messages as a set; their order by created_at is not modelled.
- Fetching.TryToFetch: an answer with a log twice is not modelled.
- LogsTable.LogsRepo.Ensure: the ids are taken to come back in the order of the logs, and a failed statement uses up no serial number.
- A handler's statement that takes effect only after its caller has seen it fail and has gone on is not modelled; cursor statements that do are.
- Termination of the fetching, processing and waiting loops, and liveness in general; sleeps and timeouts.
- Transport, YAML, migrations, SQL text and the ABI of events: an event is given decoded, or as malformed; queries are given by their meaning.
- The stuck, failed and last-activity alerts, and the presenter's searches and links: queries and lookups without induction.
- Metrics, logging, routes, rendering and deployment files.
