# A verified model of the Zcash wallet engine

This project models the parts of the wallet engine where correctness is hard to
see by reading one function, and proves what they promise over every input,
every run and every interleaving.

| file | part of the engine |
|---|---|
| `BroadcastPolicy`, `RetryQueue`, `RetryRuns`, `QueueService` | failed broadcasts: error classes, retry budget, backoff, the persistent queue, one retry with server failover, and all runs of them |
| `BatchController`, `SyncPipeline`, `DownloadRetry`, `MemoEnhancement` | pipelined block download and scan with an adaptive batch size, and the concurrent memo pass |
| `Reauth`, `SpendLifecycle`, `SpendRuns` | single-use tokens, proposals, signing requests, prepared tasks and jobs, and all runs of them |
| `Cbor` | the hand-written codec for `zcash-pczt` payloads (RFC 8949) |
| `SwapAmounts` | exact decimal arithmetic for swap amounts |
| `SingleFlight` | in-flight scan counters, swap pollers and refreshes |
| `Shielding` | batching and dust removal when shielding transparent inputs |
| `AddressRotation` | the search for the next shielded address |
| `FileTree`, `Permissions` | owner-only directories and atomic file replacement |
| `Wrappers`, `Sequences` | `Option`, `Result` and distinct sequences |

Code that updates objects or runs loops is modelled by classes and methods whose
postconditions tie them to specification functions or state the property
outright; protocols are state machines over their steps. Clocks, random draws,
ids, network answers, database outcomes and the fee rule are parameters or
choices of a run, so the theorems hold for all of them.

## What was found

Several natural expectations are false of the code. Each is kept as it is, shown
by a concrete run or input, and replaced by the exact condition.

- After a scan loop stops early it still holds the receiver while it awaits the
  download task. The wait is certain to end by itself exactly when the messages
  the task may still send fit in the channel
  (`SyncPipeline.AwaitEndsExactlyWhenMessagesFit`); a blocked one is released by
  stopping the sync and by nothing else (`SyncPipeline.OnlyStoppingReleases`). A
  failing first scan can block it exactly when the range needs more than five
  messages (`SyncPipeline.FirstScanCanBlockExactlyWhen`): clear of the sandblasted
  heights more than 1000 heights, and from a start among them more than 400
  (`SyncPipeline.FailedFirstScanCanBlock`).
- One memo pass is certain to reach every pending row exactly when there are at
  most 100 of them (`MemoEnhancement.OnePassReachesEveryRowExactlyWhen`); beyond
  that `MemoEnhancement.SecondPageCanSkip` gives a pass that misses a row.
- A refused download request advances the attempt counter by two, so an
  unreachable server is asked only about half as often as the retry limit says
  (`DownloadRetry.RefusalsCountTwice`). The limit is met exactly when every answer
  before the last request is a stream without blocks, except that the one just
  before it may be a refusal (`DownloadRetry.LimitMetExactlyWhen`).
- The CBOR decoder adds a declared length to an offset without a check. The sum
  leaves the machine word exactly on inputs that declare such a length
  (`Cbor.OverflowsExactlyOnTooLong`), for example on the largest eight-byte length
  (`Cbor.LargestLengthOverflows`). It also accepts longer heads than needed
  and an indefinite string without its break byte; the accepted language is
  characterised exactly (`Cbor.DecoderAcceptsExactlyTheLanguage`).
- Amount conversion can overflow unchecked exactly above 38 decimals
  (`SwapAmounts.NoUncheckedOverflowExactlyUpTo38`), and then on exactly the texts
  that `SwapAmounts.OverflowsExactlyWhen` describes, such as `0.9`.
- The two amount parsers do not read the same language. They agree exactly on
  dotted numerals of at most eight fractional digits worth a positive number of
  zatoshis below 2^64 (`SwapAmounts.ParsersAgreeExactlyWhen`); on nine digits one
  refuses and the other cuts (`SwapAmounts.NinthDigitTellsThemApart`), and without
  a dot one reads zatoshis and the other coins. One of them also reads `1.+5` as
  1.05 (`SwapAmounts.PlusReadsAsZero`).
- A swap stays marked as polled without a poller exactly when its spawned task
  was dropped before it first ran (`SingleFlight.AtMostOnePoller`), which does
  happen (`SingleFlight.DroppedTaskLeavesMarker`).
- Logging out is documented to clear all cached state of the wallet. It clears
  send proposals, for good, but not signing requests
  (`SpendRuns.LogoutRemovesProposals`); one can be signed after logging in again
  (`SpendRuns.SigningRequestOutlivesLogout`).

Address indices strictly increase without any bound on the run, because the store
refuses an index that a signed 64-bit column cannot hold.

## Model

| member | source | states |
|---|---|---|
| BroadcastPolicy.BackoffWithinFifth | crates/zbag-engine/src/broadcast.rs:95-111 | after rounding, every jittered wait lies within a fifth of the base for its attempt count |
| BroadcastPolicy.BackoffGrowsDespiteJitter | crates/zbag-engine/src/broadcast.rs:11-111 | within the table a later attempt waits strictly longer whatever the two jitters are |
| BroadcastPolicy.BaseNeverFalls | crates/zbag-engine/src/broadcast.rs:95-102 | the base stays between 5 seconds and half an hour, never falls, and stays at the last entry beyond the table |
| BroadcastPolicy.ContainsExactly | crates/zbag-engine/src/broadcast.rs:23-84 | the search for a phrase succeeds exactly if it stands somewhere in the message |
| BroadcastPolicy.ClassExactly | crates/zbag-engine/src/broadcast.rs:39-93 | which class a message has, if and only if, by the four lists and their precedence; only rejections that are no duplicates are final |
| BroadcastPolicy.TypicalMessages | crates/zbag-engine/src/broadcast.rs:23-84 | whatever stands around them, duplicates count as delivered, rejections are final and timeouts are transport failures, in that precedence |
| RetryQueue.ScheduledInWindow | crates/zbag-engine/src/tx_service.rs:3143-3148 | a scheduled time lies in the backoff window after the failure, with saturation at the largest time |
| RetryQueue.NormalizeIdempotent | crates/zbag-engine/src/tx_service.rs:114-192 | normalizing a record again changes nothing, even at another time |
| RetryQueue.NormalizeNeverRevives | crates/zbag-engine/src/tx_service.rs:114-192 | normalization never makes a non-retryable record retryable |
| RetryQueue.NormalizeExactly | crates/zbag-engine/src/tx_service.rs:114-192 | what loading makes of a record: its class, flag, reason and next time, each exactly, and nothing else changed |
| RetryQueue.WritersAgreeAfterNormalization | crates/zbag-engine/src/job_service.rs:1230-1297 | the job service's and the transaction service's records of one failure load as the same record |
| RetryQueue.FirstReachableWitness | crates/zbag-engine/src/tx_service.rs:2881-2966 | failover picks the first other server that answers its probe, and none only if none answers |
| RetryQueue.FailoverTargetExactly | crates/zbag-engine/src/tx_service.rs:2881-2966 | failover goes to the first other usable server of the table that answers, and nowhere if and only if there is none |
| RetryQueue.UnknownUrlIsDefault | crates/zbag-engine/src/tx_service.rs:2901-2913 | a current URL that no usable server has stands for the default server |
| RetryQueue.SwitchLeavesOneDefault | crates/zbag-engine/src/tx_service.rs:2930-2966 | after a switch the target is the only default of its network and all else is as before |
| RetryQueue.FailureExactly | crates/zbag-engine/src/tx_service.rs:2095-2140 | the streak counts transport failures in a row, and a switch happens if and only if one came before and a server is there |
| RetryQueue.SendsAgainExactlyWhen | crates/zbag-engine/src/tx_service.rs:2076-2159 | a call sends a second time if and only if the first failed in the transport, not for the first time, within budget, with a server to switch to |
| RetryQueue.GivesUpWithLastMessage | crates/zbag-engine/src/tx_service.rs:2076-2159 | a call that gives up reports the message and class of its last send |
| RetryQueue.FailureRecordTells | crates/zbag-engine/src/tx_service.rs:3042-3100 | the record keeps when the transaction was queued, tells the last failure, and is retryable exactly within budget |
| RetryQueue.OneSendBelowThreshold | crates/zbag-engine/src/tx_service.rs:2076-2159 | below the failover threshold the retry loop makes exactly one more send and no switch |
| RetryQueue.RetryLoopBounds | crates/zbag-engine/src/tx_service.rs:2076-2159 | for every streak, server table, probe and send behaviour: one or two sends, at most one switch, a second send only to the new default, and every failed send counted |
| RetryQueue.RetryLoopWithinBudget | crates/zbag-engine/src/tx_service.rs:2062-2159 | one call never records more than seven attempts and leaves a record retryable exactly within its class's budget |
| RetryRuns.GivingUpIsFaithful | crates/zbag-engine/src/tx_service.rs:3042-3100 | a retry that gives up writes a record whose count, flag and next time are right |
| RetryRuns.StepKeepsInv | crates/zbag-engine/src/tx_service.rs:1987-2210 | every broadcast, scan, clean-up and retry keeps all records faithful |
| RetryRuns.AttemptsCountFailedSends | crates/zbag-engine/src/tx_service.rs:325-503 | over any run every record counts exactly its failed retry sends, is retryable exactly within budget and is due within its backoff window |
| RetryRuns.RecordsOfRuns | crates/zbag-engine/src/broadcast.rs:117-130 | from an empty queue the count is at most seven, a record at seven is not retryable, and no retryable record indexes past the table |
| RetryRuns.BroadcastQueuesExactlyOnFailure | crates/zbag-engine/src/tx_service.rs:1455-1500 | a broadcast leaves its transaction queued if and only if it failed and not as a duplicate; other records are untouched |
| RetryRuns.KeptForSevenDays | crates/zbag-engine/src/tx_service.rs:325-503 | over any run a scan drops a record if and only if its blob is gone or seven days have passed since it was created, however often it was retried |
| RetryRuns.RetryDeliversExactlyWhen | crates/zbag-engine/src/tx_service.rs:1987-2210 | a retry whose last send gets through leaves no record, and any other leaves that send's message |
| RetryRuns.TerminalIsForever | crates/zbag-engine/src/tx_service.rs:165-192 | no sequence of scans, clean-ups and retries changes or revives a non-retryable record |
| QueueService.AscendingUnique | crates/zbag-engine/src/tx_service.rs:1283-1284 | two ascending lists of the same due entries are the same list |
| QueueService.DueOrderUnique | crates/zbag-engine/src/tx_service.rs:1257-1285 | the contract of the due list determines it completely |
| QueueService.SortedDue | crates/zbag-engine/src/tx_service.rs:1265-1285 | exactly the due transactions, each once, by due time and then txid |
| QueueService.TxService.QueueBroadcast | crates/zbag-engine/src/tx_service.rs:2650-2740 | the queue gains the blob and the record of the failed broadcast |
| QueueService.TxService.ScanQueuedBroadcasts | crates/zbag-engine/src/tx_service.rs:325-503 | one pass drops exactly the orphaned and expired entries and loads the rest normalized |
| QueueService.TxService.ListDueRetryTxids | crates/zbag-engine/src/tx_service.rs:1257-1285 | scans at one clock reading, then lists the transactions due at the next, in order |
| QueueService.TxService.TryFailoverServer | crates/zbag-engine/src/tx_service.rs:2881-2966 | makes the failover target the only default of its network, or changes nothing |
| QueueService.TxService.SendLoop | crates/zbag-engine/src/tx_service.rs:2076-2159 | the loop over mutable locals computes the specified attempt and terminates |
| QueueService.TxService.RetryBroadcast | crates/zbag-engine/src/tx_service.rs:1987-2210 | one retry is one step of the run model; its errors tell absent, exhausted and failed apart |
| BatchController.NextDownloadSize | crates/zbag-engine/src/sync_service.rs:145-152 | a valid controller asks for 100 to 2000 blocks at every height |
| BatchController.Recorded | crates/zbag-engine/src/sync_service.rs:154-206 | a scan result keeps the controller valid and its limits unchanged |
| BatchController.DownloadSizesBounded | crates/zbag-engine/src/sync_service.rs:127-206 | for every range start and history of scan timings, every later download asks for 100 to 2000 blocks |
| BatchController.ScanMovesSizeOneWay | crates/zbag-engine/src/sync_service.rs:154-206 | only fast scans without notes grow the size and only slow ones shrink it |
| BatchController.ScanMovesSizeExactly | crates/zbag-engine/src/sync_service.rs:154-206 | a slow scan takes a quarter off, a fast one without notes adds a half, rounded down and within the limits, and any other leaves the size |
| BatchController.InitialSizesExactly | crates/zbag-engine/src/sync_service.rs:128-152 | a range that starts among the sandblasted heights stays at 100, any other starts at 250 and asks for 100 only there |
| BatchController.AdaptiveBatchController.constructor | crates/zbag-engine/src/sync_service.rs:128-143 | starts in the mode of the range start's height |
| BatchController.AdaptiveBatchController.NextDownload | crates/zbag-engine/src/sync_service.rs:145-152 | returns the specified size |
| BatchController.AdaptiveBatchController.RecordScanResult | crates/zbag-engine/src/sync_service.rs:154-206 | moves to the specified size and reports an adjustment exactly when it changed |
| SyncPipeline.StepKeepsInv | crates/zbag-engine/src/sync_service.rs:952-1176 | every step of downloader, channel and scanner keeps the pipeline invariant |
| SyncPipeline.ScansAreConsecutive | crates/zbag-engine/src/sync_service.rs:952-1176 | in every interleaving the scanned batches are consecutive from the start, each with the chain state of the height below it, and cover exactly the range when it completes |
| SyncPipeline.CoverExactlyOnce | crates/zbag-engine/src/sync_service.rs:1106-1176 | consecutive scans contain every height of the range exactly once and in order |
| SyncPipeline.StepDecreasesWork | crates/zbag-engine/src/sync_service.rs:966-1040 | every step decreases a natural measure, since each download makes 100 heights of progress or ends the range |
| SyncPipeline.RunsAreShort | crates/zbag-engine/src/sync_service.rs:966-1040 | no run is longer than the measure of its first state |
| SyncPipeline.NeverStuckWhileListening | crates/zbag-engine/src/sync_service.rs:966-1176 | while the scanner listens some task can always take a step |
| SyncPipeline.AwaitEndsExactlyWhenMessagesFit | crates/zbag-engine/src/sync_service.rs:1229-1316 | after the loop, unless the sync is stopped, every run of the wait can be carried on until the download task has returned, if and only if its remaining messages fit in the channel |
| SyncPipeline.WaitingTaskCanStep | crates/zbag-engine/src/sync_service.rs:966-1040 | while awaited, a download task that is neither blocked nor done has a step to take |
| SyncPipeline.OnlyStoppingReleases | crates/zbag-engine/src/sync_service.rs:1673-1692 | from a blocked wait, stopping the sync lets the download task return, and every run in which it returns has the scan loop aborted |
| SyncPipeline.FirstScanCanBlockExactlyWhen | crates/zbag-engine/src/sync_service.rs:952-1316 | a failing first scan can leave the wait blocked if and only if the range needs more than five messages at the initial batch sizes |
| SyncPipeline.FirstScanCanBlockBeyondFourBatches | crates/zbag-engine/src/sync_service.rs:952-1316 | in closed form: if and only if four batches of 250, or 100 at sandblasted heights, do not reach the end |
| SyncPipeline.FailedFirstScanCanBlock | crates/zbag-engine/src/sync_service.rs:952-1316 | clear of the sandblasted heights exactly in ranges of more than 1000, from a start among them of more than 400 |
| SyncPipeline.RequestsFollowController | crates/zbag-engine/src/sync_service.rs:966-1000 | after any run a download starts if and only if the range is unfinished and not cancelled, from where the last batch ended, of the size the controller has after exactly the scans that succeeded |
| SyncPipeline.UndisturbedRunsComplete | crates/zbag-engine/src/sync_service.rs:952-1316 | a sync that nothing disturbs can always go on until it has scanned exactly the range and reported it complete |
| SyncPipeline.StopsForItsReason | crates/zbag-engine/src/sync_service.rs:1106-1316 | the loop stops for a reorganisation, an error or a cancellation only if one occurred in the run |
| SyncPipeline.CancelledStartsAtMostOneScan | crates/zbag-engine/src/sync_service.rs:966-1120 | after a cancellation no scan is started but that of a batch already being cached |
| DownloadRetry.DownloadBlocksWithRetry | crates/zbag-engine/src/sync_service.rs:2606-2666 | the retry loop computes the specified result with the specified number of requests |
| DownloadRetry.RequestsBounded | crates/zbag-engine/src/sync_service.rs:2606-2666 | never more requests than retries plus one |
| DownloadRetry.RefusalsCountTwice | crates/zbag-engine/src/sync_service.rs:2606-2666 | a server that always refuses is asked exactly 1 + (retries + 1) / 2 times |
| DownloadRetry.LimitMetExactlyWhen | crates/zbag-engine/src/sync_service.rs:2606-2666 | all retries are used if and only if every answer before the last request is a stream without blocks, except that the one just before it may be a refusal |
| DownloadRetry.OutcomeExactly | crates/zbag-engine/src/sync_service.rs:2606-2666 | how a call ends: what was answered before the last request, when its blocks are accepted even from a broken stream, and when it fails |
| DownloadRetry.EndingIsUnique | crates/zbag-engine/src/sync_service.rs:2606-2666 | the answers determine the last request and the result |
| MemoEnhancement.RankOfPending | crates/zbag-engine/src/sync_service.rs:2443-2497 | the k-th pending row is the one with k pending rows before it |
| MemoEnhancement.StepKeepsInv | crates/zbag-engine/src/sync_service.rs:1471-1611 | every step of the pass and its tasks keeps rows already read below the offset |
| MemoEnhancement.SpawnsAtMostOnce | crates/zbag-engine/src/sync_service.rs:1471-1611 | in every interleaving no txid is spawned twice, at most four tasks are in flight, and a finished pass counted exactly what it spawned |
| MemoEnhancement.FourCanBeInFlight | crates/zbag-engine/src/sync_service.rs:1471-1560 | the bound of four is reached |
| MemoEnhancement.PassTerminates | crates/zbag-engine/src/sync_service.rs:1471-1611 | the loop takes a bounded number of steps however the tasks interleave |
| MemoEnhancement.CanFinish | crates/zbag-engine/src/sync_service.rs:1471-1611 | from every reachable state the pass can finish without giving up |
| MemoEnhancement.PassedIsNeverSpawned | crates/zbag-engine/src/sync_service.rs:1471-1611 | a row the offset has passed unread is not spawned by the rest of the pass |
| MemoEnhancement.OnePassReachesEveryRowExactlyWhen | crates/zbag-engine/src/sync_service.rs:1471-1611 | a pass that does not give up is certain to reach every row if and only if one page holds them all |
| Reauth.ReauthManager.Issue | crates/zbag-engine/src/reauth.rs:43-57 | the new token is accepted up to 120 seconds later and not after; other tokens are untouched |
| Reauth.ReauthManager.ValidateAndConsume | crates/zbag-engine/src/reauth.rs:59-79 | succeeds exactly on an unused, unexpired token of that wallet and purpose, after which nothing accepts the token again |
| SpendLifecycle.TxService.InsertProposal | crates/zbag-engine/src/tx_service.rs:673-687 | from then on that wallet finds the proposal up to ten minutes later and not after, and no other wallet ever does; other proposals are untouched |
| SpendLifecycle.TxService.InsertSigningRequest | crates/zbag-engine/src/tx_service.rs:907-920 | the same for a signing request |
| SpendLifecycle.TxService.ValidateProposalForWallet | crates/zbag-engine/src/tx_service.rs:302-323 | refuses missing and foreign proposals alike and removes an expired one |
| SpendLifecycle.TxService.TakeProposalForExecution | crates/zbag-engine/src/tx_service.rs:1114-1153 | hands out a proposal only to its wallet and in time, and removes it |
| SpendLifecycle.TxService.TakeSigningRequestForExecution | crates/zbag-engine/src/tx_service.rs:1179-1217 | the same for signing requests, with the deadline looked at before the wallet |
| SpendLifecycle.TxService.ClearProposalsForWallet | crates/zbag-engine/src/tx_service.rs:1252-1255 | keeps exactly the other wallets' proposals |
| SpendLifecycle.TxService.ConfirmSend | crates/zbag-engine/src/tx_service.rs:1288-1330 | owns the proposal exactly when it is held for the wallet, in time, and the database opens |
| SpendLifecycle.TxService.FinalizeSigning | crates/zbag-engine/src/tx_service.rs:933-980 | owns the request exactly when it is held for the wallet, in time, and the backup is complete |
| SpendLifecycle.WalletManager.ConsumeReauthToken | crates/zbag-engine/src/wallet_manager.rs:1082-1099 | passes on acceptance and distinguishes expired from invalid tokens |
| SpendLifecycle.WalletManager.PrepareConfirmSend | crates/zbag-engine/src/wallet_manager.rs:1879-1911 | one step of the run model: the token is consumed and the proposal stays |
| SpendLifecycle.WalletManager.ConfirmOnSharedService | apps/zbag-cli/src/commands/tx.rs:220-232 | one step of the run model: the second phase of a send on the command line |
| SpendLifecycle.WalletManager.PrepareConfirmSendTask | crates/zbag-engine/src/wallet_manager.rs:1946-1974 | one step of the run model, with every way to fail and what it leaves behind |
| SpendLifecycle.WalletManager.StartSendJob | crates/zbag-engine/src/wallet_manager.rs:2395-2459 | one step of the run model |
| SpendLifecycle.WalletManager.PrepareFinalizeSigningTask | crates/zbag-engine/src/wallet_manager.rs:2052-2084 | one step of the run model |
| SpendLifecycle.WalletManager.FinalizeSigning | crates/zbag-engine/src/wallet_manager.rs:1828-1875 | one step of the run model |
| SpendLifecycle.WalletManager.ExecuteConfirmSendTask | crates/zbag-engine/src/wallet_manager.rs:1976-2007 | a prepared send goes ahead exactly when its databases open and its original deadline has not passed |
| SpendLifecycle.WalletManager.ExecuteFinalizeSigningTask | crates/zbag-engine/src/wallet_manager.rs:2086-2116 | the same for a prepared signing, which also needs a complete backup |
| SpendLifecycle.WalletManager.LogoutWallet | crates/zbag-engine/src/wallet_manager.rs:952-983 | deactivates the named active wallet and clears its proposals, or changes nothing |
| SpendRuns.Perform | crates/zbag-engine/src/wallet_manager.rs:200-2459 | every action of the run model is a call of the services, which ends in the model's state and executes exactly when the model logs an execution |
| SpendRuns.PermitTakes | crates/zbag-engine/src/wallet_manager.rs:1879-1911 | preparing a send for the shared service consumes an accepted spend token of the active wallet and takes nothing |
| SpendRuns.TaskTakes | crates/zbag-engine/src/wallet_manager.rs:1879-2084 | preparing a task takes an entry only for its wallet, in time, and with an accepted spend token |
| SpendRuns.JobTakes | crates/zbag-engine/src/wallet_manager.rs:2395-2459 | starting a job does, although the last take has no check of its own |
| SpendRuns.SignNowTakes | crates/zbag-engine/src/wallet_manager.rs:1828-1875 | signing within the call does too |
| SpendRuns.PermitExactly | crates/zbag-engine/src/wallet_manager.rs:1879-1911 | preparing a send: exactly when it succeeds, when it costs the token, and when it removes an expired proposal |
| SpendRuns.ConfirmTaskExactly | crates/zbag-engine/src/wallet_manager.rs:1946-1974 | the same for a prepared task, which removes the proposal once it gets to take it |
| SpendRuns.SendJobExactly | crates/zbag-engine/src/wallet_manager.rs:2395-2459 | the same for a job |
| SpendRuns.SigningExactly | crates/zbag-engine/src/wallet_manager.rs:2052-2084 | the same for a signing task, which costs the token even when the wallet is locked |
| SpendRuns.SigningNowExactly | crates/zbag-engine/src/wallet_manager.rs:1828-1875 | the same for signing within the call, which does not |
| SpendRuns.RefusalsExactly | crates/zbag-engine/src/wallet_manager.rs:1879-1911 | which refusals mean a watch-only wallet, an expired proposal or a bad token, if and only if |
| SpendRuns.OpenExactlyWhen | crates/zbag-engine/src/wallet_manager.rs:200-983 | when a wallet is open after loading, locking, unlocking or logging out, if and only if |
| SpendRuns.StepKeepsInv | crates/zbag-engine/src/wallet_manager.rs:1828-2116 | every action keeps the invariant that links holds, tasks, executions and tokens |
| SpendRuns.ExecutedAtMostOnce | crates/zbag-engine/src/wallet_manager.rs:1879-2116 | over any run no proposal or request is executed twice and no token pays for two executions |
| SpendRuns.ExecutedOnlyAsMade | crates/zbag-engine/src/wallet_manager.rs:1879-2116 | every execution is for the wallet that made the entry, after a check against its original deadline, and paid by a used spend token of that wallet consumed within 120 seconds of issue |
| SpendRuns.RunExtends | crates/zbag-engine/src/wallet_manager.rs:1828-2116 | no run rewrites what was executed, made or granted |
| SpendRuns.SendGoesAheadExactlyWhen | crates/zbag-engine/src/wallet_manager.rs:1879-2007 | preparing and running a send executes it if and only if wallet, deadlines, token and outside steps all allow it |
| SpendRuns.SigningGoesAheadExactlyWhen | crates/zbag-engine/src/wallet_manager.rs:2052-2116 | the same for a signing, which a watch-only wallet may do |
| SpendRuns.JobGoesAheadExactlyWhen | crates/zbag-engine/src/wallet_manager.rs:2395-2459 | a job goes ahead if and only if the wallet is open and can send, the proposal is in time, the token is good, and key and server are there |
| SpendRuns.SignNowGoesAheadExactlyWhen | crates/zbag-engine/src/wallet_manager.rs:1828-1875 | the same for signing within the call |
| SpendRuns.PermitGoesAheadExactlyWhen | apps/zbag-cli/src/commands/tx.rs:205-232 | the same for the two phases of a send on the command line |
| SpendRuns.RemovedIsNeverExecuted | crates/zbag-engine/src/tx_service.rs:1110-1255 | an entry that was cancelled, expired or cleared before it was taken is executed by no continuation |
| SpendRuns.OnlyPreparedTasksRunWhileLocked | crates/zbag-engine/src/wallet_manager.rs:200-983 | from a locked wallet or none, however wallets are loaded, locked and logged out, until one is unlocked no entry is made and nothing executes but tasks that were waiting and sends whose context was prepared before |
| SpendRuns.DroppedIsNeverExecuted | crates/zbag-engine/src/wallet_manager.rs:1976-2116 | what a task that failed to run had taken is executed by no continuation |
| SpendRuns.SigningRequestOutlivesLogout | crates/zbag-engine/src/wallet_manager.rs:952-983 | a run in which a signing request made before a logout is signed after it |
| SpendRuns.LogoutRemovesProposals | crates/zbag-engine/src/wallet_manager.rs:952-983 | logging out removes the wallet's untaken proposals for good and leaves its signing requests |
| Cbor.ReadHead | crates/zbag-keystone/src/payload.rs:58-142 | reading byte by byte gives the head the format defines, and strictly advances |
| Cbor.HeadReadsBack | crates/zbag-keystone/src/payload.rs:58-142 | every form of a head reads back at any offset with any suffix |
| Cbor.HeadHasForm | crates/zbag-keystone/src/payload.rs:58-142 | every definite head that reads was written in one of the five forms |
| Cbor.HeadRefusedExactly | crates/zbag-keystone/src/payload.rs:58-142 | a head is refused as reserved or as cut off, if and only if it is |
| Cbor.EncodesShortestForm | crates/zbag-keystone/src/payload.rs:23-56 | the encoder writes the bytes of the shortest form |
| Cbor.EncodedHeadReadsBack | crates/zbag-keystone/src/payload.rs:23-142 | reading inverts encoding at any offset with any suffix |
| Cbor.EncodedHeadIsShortest | crates/zbag-keystone/src/payload.rs:23-56 | no head that reads back to the same value is shorter |
| Cbor.EncodeZcashPczt | crates/zbag-keystone/src/payload.rs:145-154 | the output is the shortest definite document with that payload |
| Cbor.DecodeZcashPczt | crates/zbag-keystone/src/payload.rs:157-245 | the decoder with its moving offset computes the specified result |
| Cbor.DecodeChunks | crates/zbag-keystone/src/payload.rs:201-245 | the chunk loop collects and joins exactly the chunks |
| Cbor.DecodesDocument | crates/zbag-keystone/src/payload.rs:157-245 | every document of the language, with any chunks, decodes to its payload |
| Cbor.DecodedIsDocument | crates/zbag-keystone/src/payload.rs:157-245 | a successful decode consumed the whole input as one document with that payload |
| Cbor.DecoderAcceptsExactlyTheLanguage | crates/zbag-keystone/src/payload.rs:157-245 | the decoder returns a payload if and only if the input is a document with that payload |
| Cbor.TrailingBytesRefused | crates/zbag-keystone/src/payload.rs:182-233 | bytes after any definite or terminated document are refused as trailing |
| Cbor.TruncatedStringRefused | crates/zbag-keystone/src/payload.rs:182-190 | a string that ends before its declared length is refused as truncated |
| Cbor.OtherMapRefused | crates/zbag-keystone/src/payload.rs:157-168 | what is no map of one entry is refused as such |
| Cbor.OtherKeyRefused | crates/zbag-keystone/src/payload.rs:168-174 | so is a map with another key |
| Cbor.OtherValueRefused | crates/zbag-keystone/src/payload.rs:174-180 | and a value that is no byte string |
| Cbor.OverflowsExactlyOnTooLong | crates/zbag-keystone/src/payload.rs:182-225 | an unchecked addition leaves the machine word if and only if the string or a chunk declares such a length |
| Cbor.LargestLengthOverflows | crates/zbag-keystone/src/payload.rs:182-190 | eleven bytes on which the addition leaves the machine word |
| Cbor.RoundTrip | crates/zbag-keystone/src/payload.rs:145-245 | decoding the encoding of any byte string returns it |
| SwapAmounts.ConvertToSmallestUnits | crates/zbag-engine/src/swap_service.rs:1367-1416 | the loop of checked multiplications computes the specified conversion, on any text |
| SwapAmounts.ScaleUpExact | crates/zbag-engine/src/swap_service.rs:1391-1397 | repeated checked multiplication is multiplication by the power of ten, or fails exactly on overflow |
| SwapAmounts.FractionExact | crates/zbag-engine/src/swap_service.rs:1399-1409 | cutting or padding the fraction takes the integer part of the scaled fraction |
| SwapAmounts.ConversionIsExact | crates/zbag-engine/src/swap_service.rs:1367-1416 | for 1 to 38 decimals every numeral converts exactly when its scaled integer part is in (0, 2^128), and prints that number |
| SwapAmounts.NoUncheckedOverflowExactlyUpTo38 | crates/zbag-engine/src/swap_service.rs:1399-1409 | no text overflows unchecked if and only if decimals is at most 38 |
| SwapAmounts.OverflowsExactlyWhen | crates/zbag-engine/src/swap_service.rs:1367-1416 | a text overflows unchecked if and only if it is a dotted numeral with whole part zero whose cut fraction fits and whose power of ten or product reaches 2^128 |
| SwapAmounts.ParseZatoshisImpl | crates/zbag-engine/src/swap_service.rs:1261-1282 | the padding loop computes the specified parse |
| SwapAmounts.ParsersAgreeExactlyWhen | crates/zbag-engine/src/swap_service.rs:1261-1416 | on any text both parsers mean the same number of zatoshis if and only if it is a padded dotted numeral of at most eight fractional digits worth a positive amount below 2^64 |
| SwapAmounts.ConvertsExactly | crates/zbag-engine/src/swap_service.rs:1367-1416 | the answer on any text and for any decimals: what is refused, what overflows, and otherwise the exact integer part |
| SwapAmounts.ZatoshisOfAnyText | crates/zbag-engine/src/swap_service.rs:1261-1282 | the answer on any text, with and without a dot and with plus signs |
| SwapAmounts.UndottedZatoshis | crates/zbag-engine/src/swap_service.rs:1261-1282 | padded digits without a dot are that many zatoshis, if they fit 64 bits |
| SwapAmounts.PlusReadsAsZero | crates/zbag-engine/src/swap_service.rs:1261-1282 | a plus sign in front of the fraction is read as a zero, where the conversion refuses it |
| SwapAmounts.SplitExactly | crates/zbag-engine/src/swap_service.rs:1261-1282 | the text is cut at its first dot |
| SwapAmounts.TrimExactly | crates/zbag-engine/src/swap_service.rs:1367-1372 | white space is taken off both ends and nothing else |
| SwapAmounts.NinthDigitTellsThemApart | crates/zbag-engine/src/swap_service.rs:1261-1416 | with nine fractional digits one parser refuses and the other drops the last |
| SwapAmounts.ZatoshisExact | crates/zbag-engine/src/swap_service.rs:1261-1282 | a padded dotted numeral parses exactly when it has at most eight fractional digits and fits 64 bits, to its exact value |
| SingleFlight.CountersCountGuards | crates/zbag-engine/src/sync_service.rs:314-342 | in every interleaving a wallet's counter equals its live guards and is absent exactly at zero |
| SingleFlight.StartRefusedExactlyWhileScanning | crates/zbag-engine/src/sync_service.rs:395-403 | starting is refused exactly while a job is registered or a scan is alive, and stopping does not lift a scan's refusal |
| SingleFlight.SyncService.CheckStart | crates/zbag-engine/src/sync_service.rs:395-403 | refuses exactly while a job is registered or a scan guard of the wallet is alive |
| SingleFlight.SyncService.StopSync | crates/zbag-engine/src/sync_service.rs:1673-1692 | one event of the model: afterwards starting is refused exactly while a scan guard of the wallet is alive |
| SingleFlight.SyncService.AcquireScanGuard | crates/zbag-engine/src/sync_service.rs:314-327 | one event of the model: the counters still count the live guards, now one more |
| SingleFlight.SyncService.DropScanGuard | crates/zbag-engine/src/sync_service.rs:329-342 | one event of the model: the counters still count the live guards, and the key is gone with the last |
| SingleFlight.AtMostOnePoller | crates/zbag-engine/src/swap_service.rs:920-1086 | in every interleaving at most one poller and one refresh per swap; a marker without a poller exactly after a task was dropped unpolled |
| SingleFlight.SwapService.MarkPolling | crates/zbag-engine/src/swap_service.rs:942-970 | one event of the model: succeeds exactly when the swap has no poller and lost none, and then it has one |
| SingleFlight.DroppedTaskLeavesMarker | crates/zbag-engine/src/swap_service.rs:942-1086 | a run after which the swap has no poller and every start is refused |
| SingleFlight.SwapService.UnmarkPolling | crates/zbag-engine/src/swap_service.rs:1076-1083 | one event of the model: after a failed spawn the swap has no poller and can start again |
| SingleFlight.SwapService.DropJobGuard | crates/zbag-engine/src/swap_service.rs:89-97 | one event of the model: the swap's only poller is gone and polling can start again |
| SingleFlight.SwapService.TryAcquireRefreshGuard | crates/zbag-engine/src/swap_service.rs:231-240 | one event of the model: succeeds exactly when no refresh of the swap is running, and then one is |
| SingleFlight.SwapService.DropRefreshGuard | crates/zbag-engine/src/swap_service.rs:79-87 | one event of the model: the swap's only refresh is gone |
| Shielding.SelectInputs | crates/zbag-engine/src/tx_service.rs:1693-1802 | the dust loop terminates; the selection balances and, with the dust, is the batch; dust was called dust; it fails only if the fee rule refused what was left |
| Shielding.ForeignDustMakesNoProgress | crates/zbag-engine/src/tx_service.rs:1693-1802 | dust that was not offered would leave the selection unchanged |
| Shielding.ShieldFunds | crates/zbag-engine/src/job_service.rs:936-1027 | built transactions have 1 to 200 inputs and balance; with the dust they account for every processed input; success and no funds process everything; every error is explained by an objection to the batch it came to |
| Shielding.WithoutObjectionsAllIsProcessed | crates/zbag-engine/src/tx_service.rs:1693-1802 | if nobody objects, every input ends up in a transaction or was called dust |
| Shielding.InputsAreConserved | crates/zbag-engine/src/tx_service.rs:1693-1802 | distinct inputs are spent at most once, never also dust, and every processed one is spent or dust |
| AddressRotation.RotationStore.Search | crates/zbag-engine/src/address_service.rs:94-121 | the first of at most 1000 candidates the backend does not pass over decides; every failure leaves the store unchanged |
| AddressRotation.RotationStore.GetShieldedAddress | crates/zbag-engine/src/address_service.rs:70-126 | returns the least derivable index at or above the stored one and above all existing ones, and stores its successor |
| AddressRotation.AnswerIsUnique | crates/zbag-engine/src/address_service.rs:70-126 | the contract determines the answer, error cases included |
| AddressRotation.IndicesStrictlyIncrease | crates/zbag-engine/src/address_service.rs:70-126 | over any run the indices of an account strictly increase and never repeat |
| Permissions.Climb | crates/zbag-core/src/permissions.rs:36-83 | walking up terminates at a directory, or fails and changes nothing |
| Permissions.EnsureDir | crates/zbag-core/src/permissions.rs:86-105 | succeeds exactly on a directory that can be made or is there, which is then owner-only if the change is allowed; a file in the way is an error; failures change nothing |
| Permissions.CreateDirAllSecure | crates/zbag-core/src/permissions.rs:36-108 | without outside objections succeeds exactly if nothing blocks a reachable path; gives the exact tree on success and what a failure leaves |
| Permissions.BuiltMeaning | crates/zbag-core/src/permissions.rs:85-108 | building keeps every entry and adds only owner-only directories on the way |
| Permissions.EnsuredMeaning | crates/zbag-core/src/permissions.rs:36-108 | after success the path and all above it are directories, new ones are 0700, and all other entries are unchanged |
| Permissions.PartlyBuiltMeaning | crates/zbag-core/src/permissions.rs:36-108 | a failure keeps every entry, leaves only new 0700 directories above the path, and nothing at all if a file blocks it |
| Permissions.WriteAndSync | crates/zbag-core/src/permissions.rs:139-143 | writes all in parts of any size and flushes it, and every moment holds a first part |
| Permissions.Overwrite | crates/zbag-core/src/permissions.rs:150-180 | at every moment the target holds all of the old or all of the new; failure leaves it unchanged, with a temporary file only if its removal failed |
| Permissions.WriteFileSecure | crates/zbag-core/src/permissions.rs:125-186 | success leaves exactly the new bytes, flushed, with mode 0600 and nothing else changed; fails only when the target is not writable or the system objects |

## Left out

- librustzcash, proving, PCZT handling, key derivation, encryption, databases, gRPC, HTTP, Tor and the user interface: foreign code or plumbing; what the core needs of them is a parameter.
- RetryRuns.AttemptsCountFailedSends: one wallet's queue, with store and server-table operations succeeding and records that parse; account lookup is not modelled.
- BroadcastPolicy.BackoffWithinFifth: exact reals in place of 64-bit floats; error messages are already lower-cased.
- SyncPipeline.ScansAreConsecutive: batches are the requested intervals; that a server streams exactly the requested blocks, and the outer loops over ranges, are not modelled.
- BatchController.ScanMovesSizeOneWay: scan times are exact reals.
- DownloadRetry.RequestsBounded: the waits between requests.
- MemoEnhancement.SpawnsAtMostOnce: rows keep their order, txids are well formed and distinct, and the pending set only shrinks by commits of tasks in flight.
- SpendRuns.ExecutedOnlyAsMade: ids and tokens are assumed fresh, as random UUIDs are; retries of queued broadcasts, of which the automatic ones set their intent without a token, are covered only as consumers of tokens.
- SpendLifecycle.TxService.ConfirmSend: an execution is the point where the call owns the entry; later policy checks, building and broadcasting are not modelled.
- Cbor.RoundTrip: payloads whose encoding would not fit the address space.
- SingleFlight.StartRefusedExactlyWhileScanning: the job half speaks of the registry, not of running sync tasks; the test and the insertion are two locked sections, and whether a registered job's task still runs is not modelled.
- Shielding.ShieldFunds: `consolidate` and broadcasting; the fee rule is assumed to name only dust it was offered, without which the loop need not end.
- AddressRotation.RotationStore.GetShieldedAddress: database failures, and addresses of other kinds, which do not rotate.
- Permissions.CreateDirAllSecure: symbolic links, `..` components, the process umask, Windows, and changes by other processes during the call.
- Permissions.WriteFileSecure: what a power failure leaves on disk; the source does not flush the directory after the rename.
- Estimates and smoothing shown to users, job cancellation, swap state merging across actors, birthday estimation, backup challenges, and single-branch checks: easy members or no stable property.
