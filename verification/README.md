# The claim pipeline, verified

A model in Dafny 4.11 of a crash-tolerant insurance-claim pipeline, with proofs about every run
of it. `dafny verify dfyconfig.toml` checks everything.

Claims are logged by a contract. Listeners index the confirmed log into PostgreSQL, verify the
anchored bytes and publish each submission to Kafka. One scoring worker per partition scores it
and writes the decision back to the contract. A relay worker carries gasless submissions onto the
chain, limiters stand in front of both, and operators page through and reconcile the index.

## How it is organised

| files | what they model |
|---|---|
| `Runs` | runs of a step relation, with and without the actions taken, and induction over them |
| `Text`, `ChainLog` | identities; the contract's log, its guards and the state it determines |
| `ClaimIndex` | the audit table, the guarded upserts and the checkpoint, against a plain fold |
| `ListenerSystem`, `ListenerGuarantees`, `ListenerProvenance`, `ListenerFailures`, `ClaimsListener` | any number of listeners as a step system; what every run keeps; what each settlement rests on; where a failed drain resumes; the process itself |
| `ScoringSystem`, `ScoringWorker`, `ScoringProvenance`, `ScoringFailures` | one partition's worker as a step system; its guarantees and the process itself; where decisions, receipts and dead letters come from; what it does not guarantee |
| `Pipeline` | listeners and workers joined by one chain and one topic |
| `Fees`, `RelayReceipts`, `RelayErrors`, `RelaySystem`, `RelayGuarantees`, `RelayProvenance`, `RelayFailures`, `GaslessRelayer` | fee arithmetic; receipt checks; which errors are final; relay workers over one outbox, what they guarantee, what their attempts and failures rest on, and what they do not guarantee; the process itself |
| `SlidingWindow`, `CredentialLedger`, `RateLimits`, `Challenges` | one deque; the credentials' deques and counters; the in-process boundary; the SQL limiter |
| `Features`, `Duplicates` | history-dependent snapshots; cross-insurer matching |
| `Keyset`, `Reconcile` | cursor walks; reconciliation |
| `Base64`, `Json`, `Codecs`, `Sessions` | the opaque texts and their round trips |

A *step system* has a `World` of durable stores and process positions, an `Action` per effect,
and `Run`, a list of worlds each of which follows from the one before; `Labelled` runs list the actions
too, and every run can be labelled. A process may fail, crash
or lose a reply between any two effects. The imperative classes take such steps in the order the
program does; `Valid()` says that everything done so far, here and by others, is a run, and
`Others()` is interference: its contract says no more than that the run went on and left this
process's own position alone. Where a method takes `quiet`, that flag means no failure and no
interference, and the contract then says what the call achieves.

## What is assumed

- The chain is append-only below the safe head. Its guards are modelled, not assumed: claim ids
  are contiguous, positions rise, a transaction is in one block, and the lifecycle graph holds.
- The replay origin is not after the first log.
- One live handler works on a partition, and all copies of a claim's event share a partition.
- One deployment: chain id and contract address are fixed, so they are not columns. Block hashes
  and row timestamps are not modelled.
- A SQL transaction is one step. Statements that take an advisory lock run one after the other.
- Signed bytes are identified with their content, since signing is deterministic.
- Digests, message authentication codes and the checksum spelling are function parameters;
  `Sessions.Sound` lists what is asked of them.
- Amounts and averages are real numbers.

## Where the program does not do what it says

- `main` says that failures retry from the saved checkpoint (apps/listener/claims_listener.py:696).
  They retry from the loop variable, which a failed drain leaves where it was: at the checkpoint
  exactly when it was there before and the drain saved no range
  (`ListenerFailures.ResumesAtCheckpointIff`). Otherwise saved ranges are replayed and `save` is called
  with older blocks (`ListenerFailures.SavedRangesAreReplayed`). All guarantees are proved for that.
- A redelivered event is not always finished by the next undisturbed turn. A transaction left waiting
  by a receipt timeout is executed before the one the turn sends, which then reverts
  (`ScoringFailures.OneTurnMayNotSuffice`). One turn is enough exactly when the message is `Clear`
  (`ScoringWorker.Worker.ProcessNext`), and two always are (`ScoringWorker.Worker.RecoverInTwo`).
- A completed assessment can become failed again (`ScoringFailures.CompletionCanBeUndone`): exactly
  when the reply to completing it is lost (`ScoringFailures.UncompletedByMarkFailed`,
  `ScoringFailures.UndoingBegins`), and never on runs without that
  (`ScoringFailures.CompletionIsPermanent`). If a person has moved the claim on by the next delivery,
  and exactly then, its event is refused and dead-lettered although its decision was executed
  (`ScoringFailures.RefusedThoughExecuted`, `ScoringFailures.DeadLetteredThoughExecuted`).
- The nine-eighths fee ladder holds only when a replacement is quoted from the current record. Two relay
  replicas can store a mere increase (`RelayFailures.StaleRecordBreaksLadder`); the exact condition is
  `Fees.RungGuaranteedIff`, and one replica always meets it.
- `deployment_mismatch` can never be reported (`RelayReceipts.DeploymentMismatchNeverReported`).
- `mark_broadcast` may record a replacement as broadcast that was never sent: when another worker
  stored it meanwhile (`RelayFailures.MarkMayCoverUnsentBytes`), or on the repair path of a single worker
  (`RelayFailures.RepairMayCoverUnsentBytes`); `RelayFailures.UncoveredIff` says exactly when. With one
  worker an attempt is then mined (`RelayFailures.OneReplicaLosesNothing`).
- The minute of the in-process limiter is half-open; a closed minute can hold twice the limit
  (`SlidingWindow.ClosedWindowHoldsTwice`, `SlidingWindow.ClosedWindowAttained`) and stays within it
  exactly under `SlidingWindow.ClosedWindowsBoundedIff`.
- The clock is read before the lock is taken. A source address is still bounded exactly when its limit is
  one or no call enters behind an earlier one (`SlidingWindow.MinutesBoundedIff`); under a larger limit a
  single microsecond is enough to overrun it (`RateLimits.SubmissionBoundary.OverrunByOneTick`). The
  limits of a credential survive any disorder exactly when the minute limit is one and the quota is at
  least 1440 (`CredentialLedger.BoundedIff`).
- The challenge limiter tolerates clocks that step back by a day less a minute plus the lifetime of a
  challenge, and not a microsecond more (`Challenges.BoundedIff`).
- Booleans are said to be rejected in a cursor (apps/backend/app/indexer_operations.py:274); the version
  itself may be `true`, because Python holds it equal to 1 (`Codecs.CursorReadIff`).
- A session token may be refused up to a second before its advertised expiry
  (`Sessions.AdvertisedExpiryIsLater`).

## Model

| member | source | states |
|---|---|---|
| `ChainLog.LifecycleIsMonotone` | apps/contracts/contracts/ClaimsRegistry.sol:765-786 | Over any further events a claim keeps its submitted facts, never becomes Submitted again, keeps the score its first assessment fixed, and does not change after Approved or Rejected |
| `ChainLog.IdsDistinct` | apps/contracts/contracts/ClaimsRegistry.sol:693-740 | No two logs of a history the contract can have emitted share an identity |
| `ChainLog.SubmissionOf` | apps/contracts/contracts/ClaimsRegistry.sol:693-740 | Every existing claim has exactly one submission log, and nothing about the claim is logged before it |
| `ChainLog.NextLogIff` | apps/contracts/contracts/ClaimsRegistry.sol:303-336 | After every history the contract emits exactly: a submission with the next free id, or an assessment along one of the seven lifecycle edges with a score of at most 10000 that the first assessment fixes |
| `ClaimIndex.IndexKeepsMirror` | packages/integrations/postgres/claim_index_repository.py:125-404 | Indexing the next log of the chain extends both tables by exactly that log; indexing any earlier one again changes nothing |
| `ClaimIndex.ReplayIsNoOp` | packages/integrations/postgres/claim_index_repository.py:176-404 | The position comparisons make a replayed submission or assessment leave every column as it is |
| `ClaimIndex.RowMeaning` | packages/integrations/postgres/claim_index_repository.py:176-404 | A folded row holds the submitted facts of the claim and the status, score and position of its last event |
| `ClaimIndex.RowColumns` | packages/integrations/postgres/claim_index_repository.py:176-404 | The same column by column: every column of a claim row from the claim's submission and its latest event |
| `ClaimIndex.AuditRowMeaning` | packages/integrations/postgres/claim_index_repository.py:126-174 | An audit row repeats its log: claim, kind, position, lower-cased hash, time, and status and score, which are Submitted and 0 for a submission |
| `ClaimIndex.MissingSubmissionIffNotIndexed` | packages/integrations/postgres/claim_index_repository.py:312-404 | The missing-submission error is raised exactly when no submission of the claim is among the indexed logs |
| `ClaimIndex.RowsAgreeWithContract` | apps/listener/reconcile_claim_index.py:109-127 | The folded table holds exactly the claims getClaim returns after the same logs, hexadecimal case aside |
| `ClaimIndex.ClaimIndexRepository.IndexClaimSubmitted` | packages/integrations/postgres/claim_index_repository.py:176-310 | Insert-or-merge of the claim row and once-only audit insert, as the transition that the fold is proved against |
| `ClaimIndex.ClaimIndexRepository.IndexClaimAssessed` | packages/integrations/postgres/claim_index_repository.py:312-404 | Guarded update and once-only audit insert; a missing claim rolls everything back |
| `ClaimIndex.LoadReturnsHighestSaved` | packages/integrations/postgres/claim_index_repository.py:818-858 | Whatever blocks save was called with, load returns the highest of them, and the configured origin exactly when there was none; the indexed tables are not touched |
| `ListenerSystem.ActionKeeps` | apps/listener/claims_listener.py:285-327 | Every effect, crash, timeout and late delivery of any listener keeps the joint invariant of tables, journal, checkpoint and cursors, and the shared stores only grow |
| `ListenerGuarantees.NoSubmissionLost` | apps/listener/claims_listener.py:535-559 | In every reachable state each submission up to the saved checkpoint is in Kafka or in the dead-letter file |
| `ListenerGuarantees.FirstSettlementsInChainOrder` | apps/listener/claims_listener.py:295-327 | First settlements of submissions happen in chain order on every schedule of failures, replays and late deliveries, for any number of listeners |
| `ListenerGuarantees.OnlySubmissionsSettled` | apps/listener/claims_listener.py:387-464 | Nothing but submissions of the log is ever published or quarantined |
| `ListenerGuarantees.ProjectionIsAFold` | packages/integrations/postgres/claim_index_repository.py:125-404 | Both tables equal the plain chain-order fold of one prefix of the log that covers every block up to the checkpoint, with one audit row per log |
| `ListenerGuarantees.AuditIsTheLog` | packages/integrations/postgres/claim_index_repository.py:126-174 | In every reachable state every log up to the checkpoint has its audit row, saying what the log said |
| `ListenerGuarantees.MissingSubmissionUnreachable` | packages/integrations/postgres/claim_index_repository.py:338-404 | No reachable listener can raise the missing-submission error |
| `ListenerGuarantees.CursorsWithinCheckpoint` | apps/listener/claims_listener.py:672-705 | No listener holds a cursor beyond the saved checkpoint, and before the first save every cursor is the origin |
| `ListenerGuarantees.CheckpointNeverDecreases` | packages/integrations/postgres/claim_index_repository.py:834-858 | The checkpoint never decreases although save is called with older blocks after a failed drain |
| `ListenerProvenance.SettledAsVerified` | apps/listener/claims_listener.py:307-327 | On every run with its actions, a published submission was found good by an earlier verification of its bytes and a quarantined one was found bad |
| `ListenerProvenance.SettledWhereItBelongs` | apps/listener/claims_listener.py:387-464 | So a submission up to the checkpoint never found bad is in Kafka, and one never found good is in the dead-letter file |
| `ClaimsListener.MergedQueriesAreTheLog` | apps/listener/claims_listener.py:295-306 | Sorting the union of the two event queries yields exactly the stretch of the chain log in the range |
| `ClaimsListener.TwoQueriesAreTheLog` | apps/listener/claims_listener.py:295-306 | The same when the chain grew between the two queries |
| `ClaimsListener.ListenerProcess.ProcessEntry` | apps/listener/claims_listener.py:307-327 | A handled submission is then the latest message in Kafka, one with permanently bad content the latest dead letter; otherwise the drain is abandoned with the main cursor unchanged. Undisturbed it is one or the other as the bytes deserve |
| `ClaimsListener.ListenerProcess.HandleClaimSubmitted` | apps/listener/claims_listener.py:387-464 | Done means that this submission is the latest message in Kafka; a permanent error leaves it to be quarantined; anything else abandons the drain. Undisturbed, the bytes decide |
| `ClaimsListener.ListenerProcess.Publish` | packages/integrations/kafka/events.py:339-380 | Success means that the submission is in Kafka; a timeout leaves it queued, to be delivered later or never |
| `ClaimsListener.ListenerProcess.FetchEntries` | apps/listener/claims_listener.py:295-306 | The entries are the log stretch of the range, while other processes interfere |
| `ClaimsListener.ListenerProcess.ProcessEntries` | apps/listener/claims_listener.py:307-327 | The loop handles every entry of the range in order or stops at a failure |
| `ClaimsListener.ListenerProcess.ProcessRange` | apps/listener/claims_listener.py:285-327 | A range that returns has settled all of its logs; an undisturbed one settles exactly its submissions, in chain order |
| `ClaimsListener.ListenerProcess.ProcessLatest` | apps/listener/claims_listener.py:535-559 | At most one range of at most the limit, and its end is saved only after all its logs |
| `ClaimsListener.ListenerProcess.ProcessToSafeHead` | apps/listener/claims_listener.py:561-589 | A drain that returns without being stopped ends at the safe block having tiled the interval with contiguous ranges, all full but the last; an undisturbed one returns and settles exactly the submissions up to there |
| `ClaimsListener.ListenerProcess.Poll` | apps/listener/claims_listener.py:682-705 | One turn of the retry loop: after any failure the loop variable is exactly what it was, after a success it has moved on by contiguous ranges; an undisturbed turn reaches the confirmed block and publishes or quarantines exactly the submissions up to it, in chain order, as their bytes deserve |
| `ListenerFailures.ResumesAtCheckpointIff` | apps/listener/claims_listener.py:695-703 | For the only process, over any failed drain: the loop variable does not move, and it is the saved checkpoint exactly when it was so before and the drain saved no range |
| `ListenerFailures.LeftBehind` | apps/listener/claims_listener.py:682-705 | A run whose third range fails leaves the loop variable two blocks behind the checkpoint |
| `ListenerFailures.SavedRangesAreReplayed` | apps/listener/claims_listener.py:555-559 | The run goes on to process saved blocks again and to call save with an older block, which changes nothing |
| `ScoringSystem.NoSecondWrite` | apps/contracts/contracts/ClaimsRegistry.sol:303-336 | Once an UnderReview or Flagged decision has been applied to a claim, the contract refuses the same decision for ever |
| `ScoringSystem.ActionKeeps` | packages/integrations/kafka/scoring_worker.py:453-581 | Every effect, lost reply, crash and foreign event keeps the invariant of queue, rows, dead letters, transactions and chain |
| `ScoringWorker.SavedScoreNeverChanges` | packages/integrations/postgres/assessment_repository.py:54-96 | Once saved, an event keeps its status and score for the rest of the run, however often it is redelivered and whatever the scorer answers |
| `ScoringWorker.WritesCarryTheSavedDecision` | packages/integrations/kafka/scoring_worker.py:541-558 | Every assessment the worker wrote carries exactly the saved status and score of its claim |
| `ScoringProvenance.DecisionIsTheFirstAnswer` | packages/integrations/kafka/scoring_worker.py:523-536 | On every run with its actions, a saved decision is the scorer's answer for that event, and the first one saved |
| `ScoringProvenance.WritesCarryTheFirstAnswer` | packages/integrations/kafka/scoring_worker.py:538-552 | Every assessment the worker wrote is Flagged if that answer was flagged and UnderReview if not, with its score |
| `ScoringProvenance.DeadLettersAreRefusals` | packages/integrations/kafka/scoring_worker.py:474-515 | On every run an event is dead-lettered only after its bytes were refused or its claim was found assessed otherwise |
| `ScoringProvenance.ReceiptIsTheWrite` | packages/integrations/postgres/assessment_repository.py:98-117 | On every run a receipt on record is of the only write the worker made to that claim |
| `ScoringWorker.AtMostOneWritePerClaim` | packages/integrations/kafka/scoring_worker.py:544-569 | However many copies and transactions there are, one write per claim at most succeeds |
| `ScoringWorker.CompletedIsOnChain` | packages/integrations/postgres/assessment_repository.py:98-117 | A completed row is backed by an assessment in chain history with its status and score |
| `ScoringWorker.StoreProtectsExactlyCompleted` | packages/integrations/postgres/assessment_repository.py:54-96 | A saved decision withstands every later save exactly when its row is completed |
| `ScoringWorker.CommittedIsFinished` | packages/integrations/kafka/events.py:406-425 | Every committed offset is of a completed or dead-lettered event |
| `ScoringWorker.Worker.WriteBack` | packages/integrations/kafka/scoring_worker.py:543-581 | Undisturbed, the chain-write block must be retried exactly when the claim is Submitted and an earlier transaction for it is still waiting, refuses for good exactly when the claim carries another assessment, and otherwise completes the row: with the receipt of a write of its own, or with the one already on record |
| `ScoringWorker.Worker.AssessClaim` | apps/backend/app/blockchain.py:371-447 | An undisturbed write of a Submitted claim is confirmed exactly when no earlier transaction of the account for that claim is waiting; either way the claim is assessed afterwards |
| `ScoringWorker.Worker.Confirm` | apps/backend/app/blockchain.py:374-411 | The account's transactions are executed in nonce order, in any blocks and next to any other logs; the new one succeeds exactly when none of the earlier ones was for its claim |
| `ScoringWorker.Worker.Handle` | packages/integrations/kafka/scoring_worker.py:453-581 | The handler returns, reports a permanent error, or leaves the offset for redelivery; undisturbed, an event without a decision has the scorer's answer saved, and one with a decision keeps it |
| `ScoringWorker.Worker.ProcessNext` | packages/integrations/kafka/scoring_worker.py:198-221 | One undisturbed turn from any reachable state commits the next offset, its event completed or dead-lettered, exactly when the row is completed, the message is rejected, the claim is assessed or no earlier transaction for it waits; otherwise nothing moves but the claim |
| `ScoringWorker.Worker.RecoverInTwo` | packages/integrations/kafka/scoring_worker.py:198-221 | From every reachable state two undisturbed turns get past the next message |
| `ScoringFailures.OneTurnMayNotSuffice` | apps/backend/app/blockchain.py:409-416 | A run through a receipt timeout, after which an undisturbed turn sends again, is reverted and ends where it began |
| `ScoringFailures.UncompletedByMarkFailed` | packages/integrations/kafka/scoring_worker.py:579-581 | A completed row stops being completed exactly by mark_failed reaching it |
| `ScoringFailures.UndoingBegins` | packages/integrations/kafka/scoring_worker.py:570-581 | The handler comes to mark a completed row failed exactly by completing it and losing the reply |
| `ScoringFailures.CompletionIsPermanent` | packages/integrations/postgres/assessment_repository.py:98-117 | On every run without such a lost reply completed rows stay completed |
| `ScoringFailures.CompletionCanBeUndone` | packages/integrations/kafka/scoring_worker.py:570-581 | A run in which a completed row becomes failed |
| `ScoringFailures.RefusedThoughExecuted` | packages/integrations/kafka/scoring_worker.py:553-569 | Once the worker's write is on chain, the handler refuses the message for good exactly when the contract has assessed the claim again since |
| `ScoringFailures.DeadLetteredThoughExecuted` | packages/integrations/kafka/scoring_worker.py:553-569 | The run goes on to dead-letter an event whose decision the contract executed |
| `Pipeline.NothingLostOnTheWay` | apps/listener/claims_listener.py:285-327 | In every reachable joint state each submission up to the checkpoint is quarantined or stands in its partition, and every committed one is accounted for |
| `Pipeline.EndToEnd` | packages/integrations/kafka/scoring_worker.py:198-221 | Once commits cover the topic, every submission up to the checkpoint is quarantined, dead-lettered, or has its recorded status and score in chain history |
| `Pipeline.CopiesShareAPartition` | packages/integrations/kafka/events.py:121-125 | All copies of a claim event share one partition |
| `Pipeline.AtMostOneWriteAnywhere` | packages/integrations/kafka/scoring_worker.py:544-569 | All workers of all partitions together write to a claim at most once |
| `Fees.BumpIsNineEighths` | apps/backend/app/gasless_blockchain.py:695-705 | The bump is the least integer at least nine eighths of the previous fee |
| `Fees.QuoteIffAcceptable` | apps/backend/app/gasless_blockchain.py:691-718 | A quote is within the caps, covers base fee and tip and is a valid replacement; one is refused only when no such fees exist |
| `Fees.LeastPriority` | apps/backend/app/gasless_blockchain.py:691-718 | No acceptable quote has a lower tip |
| `Fees.LeastFeeWithHeadroom` | apps/backend/app/gasless_blockchain.py:706-718 | With the least tip, the fee is the least acceptable one that lets the base fee double as far as the cap allows |
| `Fees.LadderBound` | apps/backend/app/gasless_blockchain.py:691-718 | After k valid replacements 9^k f0 <= 8^k fk <= 8^k cap |
| `Fees.ReplacementsAreLogarithmic` | apps/backend/app/gasless_blockchain.py:691-718 | Six replacements double the fee, so their number is logarithmic in cap / f0 |
| `Fees.RungGuaranteedIff` | packages/integrations/postgres/gasless_submission_repository.py:713-728 | Whether the next stored replacement is a nine-eighths rung in every market, as an exact condition: the record the caller quoted from has the same next rung as the stored one, or a single wei is a rung |
| `Fees.GasIsBuffered` | apps/backend/app/gasless_blockchain.py:758-767 | The gas limit is the least integer 1.2 times the estimate, and is refused exactly when that exceeds the cap |
| `RelayReceipts.ConfirmedIffEvidence` | apps/backend/app/gasless_blockchain.py:882-943 | The receipt checks pass exactly when the receipt is the chain evidence for this authorization |
| `RelayReceipts.EvidenceNamesOneClaim` | apps/backend/app/gasless_blockchain.py:882-943 | One receipt is not evidence for two claims or two pointers |
| `RelayErrors.RefusalsAreTerminal` | apps/relayer/gasless_relayer.py:126-152 | Every refusal of a receipt is classified as terminal |
| `RelayErrors.TerminalIffMarked` | apps/relayer/gasless_relayer.py:126-152 | For every message: terminal exactly when one of the five texts that matter occurs in it, letter case aside |
| `RelayErrors.ReportedCodes` | apps/relayer/gasless_relayer.py:136-152 | The code and the terminal flag of each of the eleven errors, from the texts they are raised with |
| `RelayErrors.TerminalIff` | apps/relayer/gasless_relayer.py:126-152 | An error is terminal exactly unless it is an unreadable chain, fees above the cap or a consumed nonce |
| `RelayReceipts.DeploymentMismatchNeverReported` | apps/relayer/gasless_relayer.py:126-152 | The deployment_mismatch code can never be reported, because an earlier marker matches every such message |
| `RelaySystem.ActionKeeps` | apps/relayer/gasless_relayer.py:154-249 | Every database transaction, RPC effect, crash and block keeps the invariant of rows, nonces, network, chain and callers, and finished rows stay as they are |
| `RelayGuarantees.OnlyPersistedBytesAreSent` | apps/relayer/gasless_relayer.py:76-94 | Only bytes already in the attempt history are broadcast |
| `RelayGuarantees.OneNonceEach` | packages/integrations/postgres/gasless_submission_repository.py:501-601 | All attempts of a submission share one nonce and no two submissions share one |
| `RelayGuarantees.AtMostOneAttemptMined` | apps/relayer/gasless_relayer.py:110-124 | At most one attempt of a submission is ever mined |
| `RelayGuarantees.ConfirmedIsProven` | apps/relayer/gasless_relayer.py:220-228 | Confirmed rows have a sufficiently deep successful receipt of an own attempt whose events match |
| `RelayGuarantees.FinishedStaysFinished` | packages/integrations/postgres/gasless_submission_repository.py:769-843 | Confirmed, failed and expired rows never change, attempts are never lost |
| `RelayGuarantees.LateCallsSignNoReplacement` | apps/relayer/gasless_relayer.py:197-219 | Only a call that began before any receipt was visible can extend an attempt history |
| `RelayGuarantees.FeesRiseWithinCaps` | packages/integrations/postgres/gasless_submission_repository.py:722-728 | Fees and tips of a history rise strictly within the caps, so its length is bounded |
| `RelayGuarantees.LadderWhenQuotedCurrent` | apps/relayer/gasless_relayer.py:206-210 | When every replacement was quoted from the current record the ladder and its logarithmic bound hold |
| `RelayGuarantees.OneReplicaKeepsTheLadder` | apps/relayer/gasless_relayer.py:206-210 | With one relay worker they hold on every run |
| `RelayProvenance.FailedForGood` | packages/integrations/postgres/gasless_submission_repository.py:819-843 | On every run with its actions, a failed submission had an error recorded that was terminal and had a cause: raised by the adapter, a gas limit above the cap, or a deep receipt that does not show it |
| `RelayProvenance.TransientErrorsFailNothing` | apps/relayer/gasless_relayer.py:129-134 | A run whose only errors are outages, high fees and consumed nonces leaves no submission failed |
| `RelayProvenance.AttemptsAreQuoted` | apps/backend/app/gasless_blockchain.py:691-767 | On every run each attempt carries the quote and gas of an earlier request to the node; the first takes the greater of the pending and the reserved nonce, a replacement is quoted above an attempt before it |
| `RelayProvenance.ExpiredForGood` | packages/integrations/postgres/gasless_submission_repository.py:440-455 | On every run nothing is ever signed for a submission once it has expired |
| `RelayFailures.UncoveredIff` | packages/integrations/postgres/gasless_submission_repository.py:616-657 | A row comes to be broadcast with its newest attempt unsent exactly by mark_broadcast on a signed row whose newest attempt was not sent; after sending, that takes a caller whose copy is shorter than the row |
| `RelayFailures.OneReplicaLosesNothing` | apps/relayer/gasless_relayer.py:178-196 | With one relay worker such a row always has a mined attempt |
| `RelayFailures.MarkMayCoverUnsentBytes` | packages/integrations/postgres/gasless_submission_repository.py:616-657 | A run of two workers that ends so, with nothing mined |
| `RelayFailures.RepairMayCoverUnsentBytes` | apps/relayer/gasless_relayer.py:178-183 | A run of one worker that ends so through the repair path |
| `RelayFailures.StaleRecordBreaksLadder` | apps/relayer/gasless_relayer.py:206-216 | A run of two workers that stores the fees 1000, 1125, 1126: the last is no rung above the one before |
| `GaslessRelayer.GaslessRelayWorker.ReceiptForAnyAttempt` | apps/relayer/gasless_relayer.py:110-124 | The loop over all hashes finds the newest mined attempt, or none if none is mined |
| `GaslessRelayer.GaslessRelayWorker.Process` | apps/relayer/gasless_relayer.py:154-249 | An undisturbed call on a current record, in each case: an authorized one is signed with the quoted fees and sent, a mined one is concluded from its receipt and signs nothing, an unmined one is sent if it was not and replaced if stuck, and a refused price leaves it or fails it |
| `GaslessRelayer.GaslessRelayWorker.RepairSigned` | apps/relayer/gasless_relayer.py:178-183 | A record left signed by a crash becomes broadcast from the receipt evidence |
| `GaslessRelayer.GaslessRelayWorker.Conclude` | apps/relayer/gasless_relayer.py:220-228 | Too shallow: nothing; proven: confirmed; refused: the error is left to be recorded |
| `GaslessRelayer.GaslessRelayWorker.ReportError` | apps/relayer/gasless_relayer.py:236-242 | An undisturbed report fails a pending record exactly for a terminal error and leaves everything else as it is |
| `SlidingWindow.PruneOfRecent` | apps/backend/app/submission_auth.py:331-336 | Pruning from the front forgets exactly the entries that became old |
| `SlidingWindow.ReserveTracks` | apps/backend/app/submission_auth.py:338-352 | A reservation below the limit keeps reservations a limit apart at least a minute apart |
| `SlidingWindow.EveryWindowBounded` | apps/backend/app/submission_auth.py:338-352 | Every half-open minute holds at most the limit |
| `SlidingWindow.ClosedWindowHoldsTwice` | apps/backend/app/submission_auth.py:331-336 | A closed minute holds at most twice the limit |
| `SlidingWindow.ClosedWindowAttained` | apps/backend/app/submission_auth.py:331-336 | For every limit, calls in clock order that put twice the limit into one closed minute |
| `SlidingWindow.ClosedWindowsBoundedIff` | apps/backend/app/submission_auth.py:331-336 | Closed minutes stay within the limit exactly when no reservation is exactly a minute after the one limit before it |
| `SlidingWindow.MinutesBoundedIff` | apps/backend/app/submission_auth.py:423-434 | Over all sequences of calls whose clocks step back by at most a given amount, every half-open minute is within the limit exactly when the limit is one or the amount is zero |
| `SlidingWindow.OneTickOverruns` | apps/backend/app/submission_auth.py:423-434 | For every limit of two or more, calls with one step back of a microsecond that put one too many into a minute |
| `CredentialLedger.InOrderBounded` | apps/backend/app/submission_auth.py:375-408 | With calls in clock order each day is within the quota and today's counters are exact, although admissions of other credentials delete counters too |
| `CredentialLedger.BoundedIff` | apps/backend/app/submission_auth.py:375-408 | Whatever the clocks, the minute limit of a credential holds on all runs exactly when it is one and the quota is at least 1440, and the daily quota holds exactly then too |
| `RateLimits.SubmissionBoundary.AddressWindowsBounded` | apps/backend/app/submission_auth.py:338-352 | Every half-open minute of a source address is within its limit, if its calls come in clock order or the limit is one |
| `RateLimits.SubmissionBoundary.InsurerWindowsBounded` | apps/backend/app/submission_auth.py:375-408 | The same for every credential, if calls come in clock order or the limit is one and the quota at least 1440 |
| `RateLimits.SubmissionBoundary.DailyQuotaKept` | apps/backend/app/submission_auth.py:390-408 | Admissions per credential and UTC day never exceed the quota, although old counters are deleted |
| `RateLimits.SubmissionBoundary.DequeIsRecentSuffix` | apps/backend/app/submission_auth.py:331-336 | In clock order the deque is exactly the reservations of the minute before the latest call |
| `RateLimits.SubmissionBoundary.FindPrincipal` | apps/backend/app/submission_auth.py:354-373 | A principal is found exactly when the key has 24 characters and its digest is configured, and it is that one |
| `RateLimits.SubmissionBoundary.ReserveAddress` | apps/backend/app/submission_auth.py:338-352 | One slot if the pruned deque is below the limit; the run of the address grows by the call either way |
| `RateLimits.SubmissionBoundary.ReservePrincipal` | apps/backend/app/submission_auth.py:375-408 | Minute, then day; neither counter moves on a refusal; the run of charges grows by the call either way |
| `RateLimits.SubmissionBoundary.Reserve` | apps/backend/app/submission_auth.py:434-461 | Each answer exactly in its own case: for a matching credential what its rights, the insurer, the bypass and the three counts decide in that order, for no credential invalid or limited; and what each answer costs |
| `RateLimits.SubmissionBoundary.AuthorizeAndReserve` | apps/backend/app/submission_auth.py:410-473 | The same for the key and the address as given, stripped of white space |
| `RateLimits.StripIsBare` | apps/backend/app/submission_auth.py:429-436 | Stripping takes white space off both ends, all of it, and nothing else |
| `RateLimits.SubmissionBoundary.Authenticate` | apps/backend/app/submission_auth.py:475-508 | The matching credential's principal if it may submit; otherwise forbidden, invalid or limited, each exactly in its own case, at the cost of one call of the address; no claim quota is consumed |
| `RateLimits.SubmissionBoundary.OverrunByOneTick` | apps/backend/app/submission_auth.py:423-434 | For every configured limit of two or more, calls of one client through the boundary itself, one microsecond out of order, that overrun its minute |
| `Challenges.WithinSlackCounted` | packages/integrations/postgres/claimant_auth_repository.py:63-127 | While clocks step back by at most a day less a minute plus the lifetime, on every run the table lacks only what no count needs and every closed minute is within both limits |
| `Challenges.BoundedIff` | apps/backend/app/claimant_auth.py:309-345 | For every limit and lifetime and either kind of key, all runs are bounded exactly when clocks step back by at most that much |
| `Challenges.BeyondSlackOverruns` | packages/integrations/postgres/claimant_auth_repository.py:111-119 | One microsecond more, for every limit and lifetime: a run with distinct ids and nonces that puts one challenge too many into a minute |
| `Challenges.ClaimantAuthRepository.EveryClosedMinuteBounded` | packages/integrations/postgres/claimant_auth_repository.py:63-127 | Every closed minute of issue times holds at most the limit per client and per wallet |
| `Challenges.VerdictIff` | packages/integrations/postgres/claimant_auth_repository.py:63-140 | Which answer a request gets, exactly: from the number of recent rows of its client and of its wallet, its own times, and the ids and nonces not yet deleted |
| `Challenges.ClaimantAuthRepository.Issue` | packages/integrations/postgres/claimant_auth_repository.py:50-140 | Counts, refusals in order, deletion and insert; a refusal leaves no trace |
| `Challenges.ClaimantAuthRepository.Consume` | packages/integrations/postgres/claimant_auth_repository.py:152-181 | Exactly one unexpired, unconsumed row of the wallet is marked, and no challenge is ever consumed twice |
| `Features.RanksAreGapFree` | packages/integrations/postgres/feature_repository.py:106-186 | In table order the snapshots of a scope are ranked 0, 1, 2, ...; each policy count is the number of lower-ranked ones of its policy, and each ratio is to the mean of the lower-ranked ones |
| `Features.AveragesByRank` | packages/integrations/postgres/feature_repository.py:106-186 | The means by rank: none for the first snapshot, the first amount for the second, and each next one takes in exactly the amount ranked just below it |
| `Features.EachRankOnce` | packages/integrations/postgres/feature_repository.py:106-186 | Every rank below the count belongs to exactly one snapshot |
| `Features.FeatureRepository.Record` | packages/integrations/postgres/feature_repository.py:88-217 | A replay returns the stored snapshot, a violation leaves no trace, and no stored snapshot changes |
| `Duplicates.MatchedIffAlike` | packages/integrations/postgres/duplicate_repository.py:65-85 | The rebuilt checks match two claims exactly when chain, contract, version and incident agree and claim and insurer differ |
| `Duplicates.MatchedSymmetric` | packages/integrations/postgres/duplicate_repository.py:99-156 | The relation is symmetric and irreflexive |
| `Duplicates.LaterRecordingSeesEarlier` | packages/integrations/postgres/duplicate_repository.py:28-97 | Of two matching claims at least one was told about the other when it was recorded, even if fingerprints changed before |
| `Duplicates.OrderDoesNotMatter` | packages/integrations/postgres/duplicate_repository.py:28-97 | With fixed fingerprints the table depends only on which claims were recorded |
| `Duplicates.DuplicateRepository.RecordAndFind` | packages/integrations/postgres/duplicate_repository.py:15-97 | Upsert, then exactly the matches of the changed table, each claim once, in ascending order of claim id |
| `Keyset.OlderIsSorted` | packages/integrations/postgres/claim_index_repository.py:745-764 | A query returns exactly the matching rows below the cursor, strictly newest first |
| `Keyset.PageCuts` | packages/integrations/postgres/claim_index_repository.py:766-769 | A page is the first limit rows, and more exist exactly when it says so |
| `Keyset.RejectedIff` | packages/integrations/postgres/claim_index_repository.py:701-743 | A search is refused exactly for a status that does not exist, an empty block range, a limit out of bounds or a cursor without an id |
| `Keyset.FiltersNarrow` | packages/integrations/postgres/claim_index_repository.py:716-739 | No filter wants everything, and each one keeps exactly the events of its own column whatever the others say |
| `Keyset.WalkGoesOn` | apps/backend/app/indexer_operations.py:531-558 | A walk with more rows to come can always go on: its next search is not refused |
| `Keyset.TextBelowIff` | packages/integrations/postgres/claim_index_repository.py:744-744 | Identifiers compare at their first difference, a proper prefix first |
| `Keyset.WalkIsComplete` | apps/backend/app/indexer_operations.py:531-558 | A finished walk returns strictly descending positions with every row present at the start that matches, and nothing else |
| `Keyset.WalkTerminates` | apps/backend/app/indexer_operations.py:531-558 | With inserts newer than the cursor a walk has at most max(1, ceil(n / limit)) pages, and exactly that many when it ends |
| `Base64.RoundTrip` | apps/backend/app/claimant_auth.py:158-166 | Unpadded base64url decodes back for every byte string, in the lenient and in the strict scanner |
| `Base64.EncodeInjective` | apps/backend/app/claimant_auth.py:158-159 | Different byte strings have different encodings |
| `Base64.EncodedCharacters` | apps/backend/app/claimant_auth.py:158-159 | Encodings use the alphabet of section 5 of RFC 4648 only, in the least number of letters |
| `Base64.StrictIff` | apps/backend/app/indexer_operations.py:281-288 | Strict mode accepts exactly letters, not one beyond a group, followed by at most the equals signs that complete the group |
| `Json.RoundTrip` | apps/backend/app/indexer_operations.py:258-266 | Reading compact ASCII-escaped JSON gives every value back |
| `Json.OnlyBlanksAround` | apps/backend/app/indexer_operations.py:282-288 | Around a printed value only white space is accepted; whatever else follows it, the text is refused |
| `Codecs.CursorRoundTrip` | apps/backend/app/indexer_operations.py:250-312 | Decoding an encoded event cursor returns its position exactly when the event id is not empty |
| `Codecs.CursorReadIff` | apps/backend/app/indexer_operations.py:280-303 | A text is a cursor of a position exactly when it strictly unpacks to the version, two non-negative integers and a nonempty id |
| `Codecs.GetIsLast` | packages/integrations/kafka/events.py:134-183 | A field has the value of the last of its name |
| `Codecs.MessageRoundTrip` | packages/integrations/kafka/events.py:127-183 | Parsing a printed message gives it back exactly when it is well formed |
| `Codecs.ReadIsWellFormed` | packages/integrations/kafka/events.py:134-183 | Whatever is accepted is well formed |
| `Codecs.IdentityIsTheLog` | packages/integrations/kafka/events.py:82-86 | Equal event ids mean the same chain, transaction and log index |
| `Sessions.IssuedAuthenticates` | apps/backend/app/claimant_auth.py:409-482 | An issued token has three parts and authenticates to its wallet and subject at exactly the times from half a minute before its issue second until its expiry second |
| `Sessions.AuthenticatedIff` | apps/backend/app/claimant_auth.py:435-482 | For every token, time and session: it authenticates exactly when it has three parts, the last encodes the signature of the first two, and the payload has exactly the five fields with version 1, the address, its own subject, an unexpired end and a timely issue |
| `Sessions.ForgedRefused` | apps/backend/app/claimant_auth.py:444-451 | A token whose last part encodes anything but the signature is refused at all times |
| `Sessions.AdvertisedExpiryIsLater` | apps/backend/app/claimant_auth.py:409-433 | The advertised expiry is up to a second later than the enforced one, strictly so exactly off the whole second |
| `Sessions.Base64Law` | apps/backend/app/claimant_auth.py:158-166 | The decoder inverts the encoder on every byte string but the empty one |
| `Reconcile.ClaimIndexReconciler.ReadAll` | apps/listener/reconcile_claim_index.py:180-194 | Over a table that does not change the paging loop ends having read every row |
| `Reconcile.ClaimIndexReconciler.Reconcile` | apps/listener/reconcile_claim_index.py:152-218 | Fails exactly before the first checkpoint; otherwise the three lists are exactly the missing, unexpected and mismatched claims, ascending and without repeats |
| `Reconcile.ConsistentIffEqual` | apps/listener/reconcile_claim_index.py:98-106 | Consistent holds exactly when the row map equals the contract map, hexadecimal case aside |
| `Reconcile.MismatchedIff` | apps/listener/reconcile_claim_index.py:109-127 | A claim on both sides escapes the report exactly when all seven public fields agree, letter case aside in the two hexadecimal ones |
| `Reconcile.ListenerStatesReconcile` | apps/listener/reconcile_claim_index.py:152-218 | In every reachable listener state nothing is missing, differences concern only claims indexed beyond the checkpoint, and without such the report is consistent |
| `Text.EventIdInjective` | packages/integrations/postgres/claim_index_repository.py:32-42 | The identity of a log determines its chain, lower-cased transaction hash and index |

## Left out

- Reorganisations below the confirmation depth, which the repository does not handle either.
- A listener without a publisher or without an index; both are configured in production.
- Whether downloaded bytes match a hash is an outcome of the download, not computed; it may differ
  from one attempt to the next.
- A partition whose next event can never be processed (features or scorer always failing, or a
  message that does not parse) stays where it is: recovery is proved for runs without failures.
- Two live handlers on one partition, where an unfinished score could be overwritten.
- Eventual delivery and fairness: the runs are finite, and what is proved is safety, recovery in two
  undisturbed turns, and termination of the loops.
- Transactions of the worker that the node forgets: an undisturbed run keeps every transaction and
  executes them in nonce order.
- Whether a broadcast is stuck is an answer of the clock, given from outside; fee replacement is allowed
  at any time.
- `GaslessRelayer.GaslessRelayWorker.RunOnce`: promises only that it keeps the invariant; the order
  of candidates within a batch is not modelled.
- The `last_error_code` column: rows record whether an error ended the request, not which one it was;
  the code of each error is `RelayErrors.ReportedCodes`.
- Preparation, authorization and expiry of gasless submissions are single steps of the environment.
- `retry_after` values, log lines and metrics.
- JSON fractions, exponents, lone surrogates and UTF-8 beyond ASCII on input read as errors; on output
  every character is covered.
- Reconciliation while the index changes between pages.
- The random identifiers of challenges: that none repeats is the `unique` flag of the repository model.
- The scorer, explanations, training, the web applications, configuration parsing, the direct signer
  and the deployment scripts.
