# Verified model of the Veritio evidence stores

A Dafny model of the parts of Veritio that keep audit evidence intact: the checkpointing audit
store and its offline verifiers, the retention epoch with its staged archive and coordinator, the
commit Merkle tree and commit ledger, the delivery queues (capture spool, file outbox, dispatchers
with a rolling window), the batch file store, canonical line terminators, and the risk scores.

`dafny verify dfyconfig.toml` checks everything.

## How it is built

Code that changes state is a class with the source's fields; every method is proved against a
function from old state to new state, and the laws are proved about that function over every run.

- `Protocol` holds the records. Hashes are symbolic: a digest is the payload that was hashed, one
  constructor per payload shape, so distinct payloads have distinct digests and no collision axiom
  is needed. Canonical JSON is value equality, and an encoded record is one symbol of a text.
- `AuditTables` defines each transaction of one tenant's six tables, `AuditStore` is the class that
  performs them, `AuditRuns` proves that the tables are always the crop of one full chain,
  `AuditAnswers` says in terms of that chain when each transaction succeeds and what it then changes, and
  `RetentionVerifiers` ties the reachable stores to the offline verifiers.
- `Staging`, `SealedEpochs` and `StagingArchive` are the staged archive of one epoch: deriving,
  sealing, recovering, verifying, deleting and confirming absence. `EpochEvidence` says what an accepted
  or recovered epoch proves about whatever provider holds it.
- `EpochProtocol` makes every awaited store or provider effect of the coordinator one step, with a
  crash step that forgets all local variables and steps of other clients in between. `EpochSafety`
  proves crash safety and the order of effects over every run, `EpochConvergence` that a current
  rerun finishes from every state, and `Coordinator` that the imperative coordinator performs exactly
  the machine's uninterrupted run, and what a run may do to any store and any provider (`RunGuarantee`).
- `MerkleTree`, `CommitLedger` and `LineTerminators` are the commit tree, the commit ledger and the
  line-terminator unescaping of canonical JSON.
- `SpoolFiles`, `SpoolLedger` and `Spool` are the capture spool. A process has a `life`, the number of
  file operations left before it dies, so each contract speaks of every crash point; a life above `Steps`
  survives a locked section. `SpoolLedger` holds the log of a run and what the queue owes after it;
  `RunProcesses` runs any processes, whose locked sections interleave wherever one awaits a request.
- `OutboxRows`, `OutboxRuns`, `OutboxAnswers` and `Outbox` are the file outbox; `RollingWindow` and
  `Dispatcher` the bounded passes over it.
- `RiskScoring`, `RiskRollup`, `RiskEpisodes` and `RiskTemperature` are the risk scores, over the reals.
- `BatchFiles` and `FileStore` are the batch file store, whose processes may die between any two lines.

## What the code needs from its callers

- The outbox settles a row without a lease id when the row is not leased
  (storage/src/outbox-shared.ts:153-159). Delivered and dead rows are final for callers that pass a
  lease id, as both dispatchers do. A leaseless delivery keeps the byte ceiling; a leaseless failure
  keeps it exactly when the row was not delivered yet or its bytes still fit
  (`LeaselessFailureKeepsCeilingIff`; `LeaselessSettlementBreaksCeiling` gives a failing call).
- The rolling limits hold for serial passes of one dispatcher and clocks that never go back, over
  windows without their first instant. Windows with it hold exactly while the sends of one window ago
  leave room as well (`AdmittedSendKeepsClosedIff`; `ClosedWindowsMayHoldTwoBursts` gives a failing
  history).
- Retries of a retention epoch reuse its ids, creation time, records, segment size and policy
  reference; a rerun converges when it is given the store's current fence and state. While the epoch
  has no checkpoint nobody else crops the tenant's chain, which is what the epoch lease is for.
- The spool keeps every batch of a run that starts with `Room`: safe integers left for the legacy
  batches and for one name each locked section, and no dated name taken by a broken legacy file at the
  run's clock readings. Past the safe integers an increment is lost and the next batch overwrites the
  last one, exactly then (`BeyondSafeIntegersBatchesAreLost`). A broken legacy file overwrites what has
  its dated name exactly when quarantine holds other bytes under it (`SettingAsideKeeps`,
  `TwoJunkFilesInOneInstant`).
- A spool whose state file cannot be read stays closed until an operator resumes it, with one exception: a
  process that dies between setting the file aside and writing its successor
  (adapters/claude-code/src/spool-files.ts:148-161) leaves no state file, and the next reader starts an
  open queue. `ReadState` says this is exactly when the hold is lost; `ClosedUntilResumed` is about runs in
  which no state file goes missing.
- One directory of the batch file store holds one tenant (`SecondTenantBreaksChain`).

The comment on `normalizeCommitMembers` says it validates that members are ordered
(sdks/go/event.go:629-632). The code sorts them first, so the verifier also accepts a commit whose
stored members are out of order when its own hash covers that order. The model follows the code
(`StoredOrderIsNotChecked`).

## Model

| member | source | states |
|---|---|---|
| Protocol.LinkedRangePart | storage/src/index.ts:1659-1675 | any part of a hash-linked range is itself linked behind the hash in front of it |
| Protocol.LinkedRangeConcat | storage/src/retention-staging-archive.ts:235-262 | two linked ranges that meet at a hash are one linked range ending on the second one's hash |
| Protocol.ChainedSplit | storage/src/retention-staging-archive.ts:246-262 | a range is linked exactly when its front is and its back continues from the front's last hash |
| Protocol.ChainDetermined | sdks/go/retention.go:217-251 | two nonempty linked ranges from one anchor with the same final hash are the same records |
| AuditStore.SqlAuditStore.Append | storage/src/index.ts:565-608 | appends or replays exactly as specified on the tables; a refused append changes nothing |
| AuditStore.SqlAuditStore.InsertNew | storage/src/index.ts:609-647 | allocates the record behind the stored tip and moves row, ledger and tip together, or refuses and changes nothing |
| AuditStore.SqlAuditStore.AdvanceRetentionPolicyFence | storage/src/index.ts:692-710 | succeeds exactly when the state is valid, the expected fence is the current one and below the largest safe integer; then the fence is one higher, that is the answer, and nothing else changes |
| AuditStore.SqlAuditStore.CompactRange | storage/src/index.ts:717-767 | stores the checkpoint, tombstones and deletes exactly its hot range and moves the retained prefix, or changes nothing |
| AuditStore.SqlAuditStore.CheckCompaction | storage/src/index.ts:727-745 | the first check of the compaction request that fails, in the store's order |
| AuditStore.SqlAuditStore.CheckRange | storage/src/index.ts:1659-1675 | the loop over the hot rows accepts exactly the linked range that ends on the checkpoint's boundary hash |
| AuditStore.SqlAuditStore.PrepareDisposition | storage/src/index.ts:785-841 | creates, replays or rebinds an attempt at the current fence, or changes nothing |
| AuditStore.SqlAuditStore.ConfirmDisposition | storage/src/index.ts:847-902 | stores one receipt with its attempt marked disposed, replays the same receipt, or changes nothing |
| AuditStore.SqlAuditStore.DeleteRange | storage/src/index.ts:992-996 | keeps exactly the rows outside the range |
| AuditRuns.LegacyStart | storage/src/index.ts:84-92 | a tenant whose hot rows predate the ledger, seeded from its newest row, starts in the invariant |
| AuditRuns.AppendKeepsInvariant | storage/src/index.ts:609-647 | an append extends the full chain by the new record and keeps the tables its crop |
| AuditRuns.CompactedRange | storage/src/index.ts:727-745 | a compaction that is not refused carries the next tile of the full chain and removes exactly that range |
| AuditRuns.LedgerCompacted | storage/src/index.ts:746-766 | after the tombstones every cropped key, ledgered or legacy, names its one chain position |
| AuditRuns.ApplyKeepsInvariant | storage/src/index.ts:565-902 | every transaction, accepted or refused, keeps the tables the crop of one full chain |
| AuditRuns.RunKeepsInvariant | storage/src/index.ts:565-902 | over every run: tip and minimum are those of the full chain, hot rows are its uncropped part, checkpoints tile the rest, receipts exist exactly for disposed attempts |
| AuditRuns.KnownKeyReplays | storage/src/index.ts:571-608 | re-appending a known key leaves the chain alone and gives the original record, the disposed error, or a conflict |
| AuditRuns.IdempotencySurvivesRuns | storage/src/index.ts:571-608 | the same after any later run, however much was cropped; no key ever names two positions |
| AuditRuns.FreshKeyExtendsChain | storage/src/index.ts:609-647 | after any run a fresh key is appended right behind the tip of the full chain |
| AuditRuns.DispositionStep | storage/src/index.ts:785-902 | what one transaction may do to an attempt and a receipt: fences only rise, receipts only appear, and only at the current fence |
| AuditRuns.ReceiptsAreFinal | storage/src/index.ts:872-902 | over every run a receipt never changes and an attempt's fence never falls |
| AuditRuns.StaleAttemptCannotDispose | storage/src/index.ts:1762-1774 | an attempt from before a fence advance produces no receipt in any run that does not prepare it again |
| AuditAnswers.AppendsExactly | storage/src/index.ts:565-647 | on a reachable store a fresh key is appended exactly when the expected tip, if any, is the tip of the full chain and sequences are left; the record then stands right behind the tip with the caller's event, key and time |
| AuditAnswers.ForeignAppendIsRefused | storage/src/index.ts:565-570 | an event of another tenant, or a blank tenant or key, is refused and changes nothing |
| AuditAnswers.CompactsExactly | storage/src/index.ts:717-767 | a compaction succeeds exactly for the store's own state and fence and the next tile of the full chain, and leaves exactly the rest of the chain hot |
| AuditAnswers.AdvancesExactly | storage/src/index.ts:692-710 | the fence advances exactly from its current value, by one, and nothing else changes |
| AuditAnswers.AdvanceRetiresAttempts | storage/src/index.ts:692-710 | after a successful advance no run stores a receipt for an undisposed checkpoint without preparing it again |
| AuditAnswers.PreparesExactly | storage/src/index.ts:785-841 | an attempt is stored exactly when it is pending under the current fence for a stored checkpoint without a receipt, in the place of none but itself or an older one |
| AuditAnswers.ConfirmsExactly | storage/src/index.ts:847-902 | a receipt is confirmed exactly for the attempt id and fence of the checkpoint's current attempt: a fitting one the first time, then only the very same |
| AuditAnswers.StoredReceiptsFit | storage/src/index.ts:847-902 | every stored receipt is that of a stored checkpoint, field by field |
| RetentionVerifiers.VerifyRetentionCheckpointChain | sdks/go/retention.go:178-211 | accepts exactly the checkpoint chains; otherwise names the first bad link and the first check it fails |
| RetentionVerifiers.VerifyAuditRecordsFromCheckpoint | sdks/go/retention.go:217-251 | accepts exactly the linked tails of the checkpoint; otherwise rejects the checkpoint, or names the first record that breaks the tail and the first check it fails |
| RetentionVerifiers.ReachableStoresVerify | sdks/go/retention.go:178-251 | every reachable store's checkpoints and hot rows pass the offline verifiers |
| RetentionVerifiers.TailDetermined | sdks/go/retention.go:217-251 | two nonempty tails accepted from one checkpoint with the same last hash are the same tail |
| RetentionVerifiers.CheckpointChainDetermined | sdks/go/retention.go:178-211 | the last checkpoint's hash commits to the whole accepted history |
| RetentionVerifiers.ReceiptNamesOneCheckpoint | sdks/go/retention.go:307-331 | a receipt is valid for at most one checkpoint |
| RetentionVerifiers.AcceptedChainTiles | sdks/go/retention.go:178-211 | an accepted chain tiles the history from its first record on: every checkpoint adjoins the one before it in sequence, hash and epoch, and together they count every record once |
| RetentionVerifiers.AcceptedTailContinues | sdks/go/retention.go:217-251 | a tail is accepted exactly when its records, one by one, hash to themselves and come right behind the record before them, the first behind the checkpoint's boundary |
| Staging.NdjsonRoundTrip | storage/src/retention-staging-archive.ts:409-437 | decoding an encoded segment gives its records back |
| Staging.NdjsonExact | storage/src/retention-staging-archive.ts:415-437 | a body that parses is the one encoding of what it parses to |
| Staging.SegmentsOfChain | storage/src/retention-staging-archive.ts:488-510 | the segments of a linked range continue one another for every segment size |
| Staging.DerivedManifestIsValid | storage/src/retention-staging-archive.ts:133-171 | every linked range of safe sequences derives a manifest that passes the manifest check, for every segment size |
| SealedEpochs.SealCompletes | storage/src/retention-staging-archive.ts:178-189 | from any provider that holds part of the image a seal finishes and adds exactly what was missing |
| SealedEpochs.CrashPrefixCompatible | storage/src/retention-staging-archive.ts:399-406 | every crash point of a seal leaves a provider the same seal can finish |
| SealedEpochs.SealThenVerify | storage/src/retention-staging-archive.ts:178-276 | sealing from empty, from part of a seal or from a finished one gives an epoch the verifier accepts with the input's records |
| SealedEpochs.AcceptedEpochIsOneRange | storage/src/retention-staging-archive.ts:212-276 | an accepted epoch decodes to one linked range from its anchor to its boundary hash |
| SealedEpochs.ArchiveRootBindsRecords | storage/src/retention-staging-archive.ts:158-166 | any two accepted epochs of a tenant under one archive root are the same records, whatever their providers, manifests and segment sizes |
| SealedEpochs.PlanKeysDistinct | storage/src/retention-staging-archive.ts:140-157 | no two writes of a seal share a key |
| StagingArchive.RetentionStagingArchive.DeriveEpoch | storage/src/retention-staging-archive.ts:133-171 | the loops validate and cut the records into exactly the specified manifest |
| StagingArchive.RetentionStagingArchive.ValidateManifest | storage/src/retention-staging-archive.ts:452-517 | the running sequence, hash and count accept exactly the valid manifests |
| StagingArchive.RetentionStagingArchive.SealEpoch | storage/src/retention-staging-archive.ts:178-189 | writes the plan in order, manifest last, and stops at the first conflict |
| StagingArchive.RetentionStagingArchive.VerifyEpoch | storage/src/retention-staging-archive.ts:212-276 | accepts exactly when listing, manifest bytes and replayed records are those of the manifest |
| StagingArchive.RetentionStagingArchive.RecoverEpoch | storage/src/retention-staging-archive.ts:197-205 | a found manifest is the stored one, carries the checkpoint's tenant, epoch, archive root and previous checkpoint, and its epoch, when accepted, holds exactly the records the checkpoint covers; missing exactly when no manifest object is there; otherwise refused |
| StagingArchive.RetentionStagingArchive.DeleteEpoch | storage/src/retention-staging-archive.ts:283-287 | removes exactly the objects of the manifest, or refuses an invalid one |
| StagingArchive.RetentionStagingArchive.ConfirmEpochAbsent | storage/src/retention-staging-archive.ts:293-302 | true exactly when every known key and the whole prefix are absent |
| StagingArchive.RetentionStagingArchive.ConfirmCheckpointEpochAbsent | storage/src/retention-staging-archive.ts:310-316 | true exactly when the manifest key and the whole prefix are absent |
| EpochEvidence.AcceptedRootDecides | storage/src/retention-staging-archive.ts:158-166 | every accepted epoch of the tenant under the archive root of an accepted one decodes to the same records |
| EpochEvidence.AcceptedEpochIsAllThereIs | storage/src/retention-staging-archive.ts:212-232 | an accepted epoch is all there is under its prefix: its segments and its exact manifest |
| EpochEvidence.AcceptedEpochHasItsRange | storage/src/retention-staging-archive.ts:235-276 | an accepted epoch has the range, count, boundary hash and root its manifest states |
| EpochEvidence.StrayObjectIsRefused | storage/src/retention-staging-archive.ts:212-232 | an epoch with a stray object under its prefix is never accepted |
| EpochEvidence.InputRootBindsRecords | storage/src/retention-staging-archive.ts:158-166 | whatever a provider serves, an accepted epoch under the root a seal derives holds the seal's records |
| EpochEvidence.RecoveredManifestsAgree | storage/src/retention-staging-archive.ts:379-394 | two manifests found for one checkpoint, in any two providers, are the same manifest |
| EpochEvidence.DeletingRemovesExactly | storage/src/retention-staging-archive.ts:283-287 | deleting keys removes exactly those objects |
| EpochSafety.FreshEpochIsSafe | storage/src/retention-coordinator.ts:149-153 | an epoch may start on any reachable store one checkpoint short of it |
| EpochSafety.CroppedAreStaged | storage/src/retention-coordinator.ts:229-248 | only the staged records can be cropped: the boundary hash determines the range |
| EpochSafety.NextIsSafe | storage/src/retention-coordinator.ts:149-325 | every start, awaited effect, crash and foreign action keeps the protocol's invariant |
| EpochSafety.EveryRunIsCrashSafe | storage/src/retention-coordinator.ts:149-325 | over any runs: all records hot while no checkpoint is stored; the staged epoch verifies while a checkpoint is stored and no attempt exists; a receipt means an empty prefix |
| EpochSafety.EveryActionIsOrdered | storage/src/retention-coordinator.ts:215-316 | nothing is deleted before an attempt is pending and nothing is put once the checkpoint is stored |
| EpochSafety.ReceiptStays | storage/src/retention-coordinator.ts:262-271 | once stored, a receipt stays, and the prefix stays empty |
| EpochSafety.FinishedRunsAgree | storage/src/retention-coordinator.ts:201-212 | all runs that finish return the same checkpoint and receipt |
| EpochConvergence.RankFalls | storage/src/retention-coordinator.ts:149-325 | a run left alone takes finitely many steps |
| EpochConvergence.StepGoesOn | storage/src/retention-coordinator.ts:149-325 | no step of a current rerun fails |
| EpochConvergence.RerunConverges | storage/src/retention-coordinator.ts:149-325 | from every state crashed runs leave, a rerun at the current fence and state ends with checkpoint, receipt and empty prefix |
| Coordinator.RetentionCoordinator.RunRetentionEpoch | storage/src/retention-coordinator.ts:149-325 | for any store and any provider: rows are cropped and a checkpoint is stored only at the store's own state and fence, where the epoch had none, and only after the sealed epoch was accepted with the records the checkpoint covers; a refused verification leaves the tables alone; objects are only removed once the checkpoint is stored and its attempt prepared; an outcome is a stored, fitting receipt over an empty prefix. The calls do exactly what the state machine's uninterrupted run does |
| Coordinator.RetentionCoordinator.CroppedWereVerified | storage/src/retention-coordinator.ts:215-248 | whatever the store and the provider hold, the rows a run crops are the records the sealed epoch was accepted with |
| Coordinator.RetentionCoordinator.CropUnderFence | storage/src/retention-coordinator.ts:229-248 | fence one: the stored checkpoint is the same, or none was stored and the rows cropped at the store's own state and fence are the records the checkpoint covers |
| Coordinator.RetentionCoordinator.DisposeUnderFence | storage/src/retention-coordinator.ts:250-318 | fence two: objects are only removed under a prepared attempt; an outcome is a stored fitting receipt under the run's ids over an empty prefix |
| MerkleTree.ComputeRecordsRoot | sdks/go/event.go:691-720 | the level loop computes the root |
| MerkleTree.PairLevel | sdks/go/event.go:700-717 | pairs neighbours and the odd last hash with itself |
| MerkleTree.RootBindsMembers | sdks/go/event.go:691-738 | equal roots mean equal indexed member lists, across lengths, depths and duplication |
| MerkleTree.OddLevelsHideDuplicates | sdks/go/event.go:702-706 | without indexed leaves duplication would be invisible: three and four hashes can share a root |
| CommitLedger.NormalizeCommitMembers | sdks/go/event.go:633-660 | gives the one normal order of the members when there is one, and refuses otherwise |
| CommitLedger.CreateEvidenceCommit | sdks/go/event.go:464-515 | there is a commit exactly for a valid input whose members have a normal order; it says what the input says, with the members in that order, and is intact |
| CommitLedger.CommitIgnoresMemberOrder | sdks/go/event.go:464-515 | the commit is the same for every permutation of the members |
| CommitLedger.StoredOrderIsNotChecked | sdks/go/event.go:588-607 | an intact commit stays intact in any order of its stored members, hashed in that order |
| CommitLedger.VerifyEvidenceCommits | sdks/go/event.go:558-612 | accepts exactly when every stream's own commits form a chain; otherwise names the first bad commit and its first fault |
| CommitLedger.AcceptedLinksBack | sdks/go/event.go:558-612 | a list is accepted exactly when every commit is sound and names the hash and sequence of the commit of its stream before it, or starts its stream |
| CommitLedger.InterleavingDoesNotMatter | sdks/go/event.go:558-612 | lists with the same streams are accepted alike, however interleaved |
| CommitLedger.AcceptedStreamByStream | sdks/go/event.go:558-612 | a list is accepted exactly when the commits of each stream are accepted alone |
| CommitLedger.StreamDetermined | sdks/go/event.go:558-612 | a stream's last hash commits to all of its commits |
| LineTerminators.UnescapeLineTerminators | sdks/go/event.go:922-939 | the index loop computes the specified text |
| LineTerminators.IsUnescapedBackslash | sdks/go/event.go:945-951 | counts the backslashes in front and reports an even number |
| LineTerminators.UnescapingIsExact | sdks/go/event.go:922-951 | in any JSON text exactly the active escapes of the two terminators become literal |
| LineTerminators.UnescapedTextDecodes | sdks/go/event.go:922-951 | the unescaped encoding of any text still decodes to the text |
| LineTerminators.EscapedBackslashIsLeftAlone | sdks/go/event.go:945-951 | in any JSON text, behind an escaped backslash the letters u2028 and u2029 stay as they are |
| SpoolFiles.AllocationIsFresh | adapters/claude-code/src/spool-files.ts:205-221 | an allocated name is unused exactly while the counter has not run past the safe integers onto a used name |
| SpoolFiles.BeyondSafeIntegersBatchesAreLost | adapters/claude-code/src/spool-files.ts:207-209 | two allocations in a row keep both batches exactly up to the largest safe integer |
| SpoolFiles.MoveKeeps | adapters/claude-code/src/spool-files.ts:224-228 | moving a file keeps every batch under its name |
| SpoolFiles.SettingAsideKeeps | adapters/claude-code/src/spool-files.ts:277-279 | setting a broken legacy file aside keeps what was there exactly when its dated name is unused or quarantine holds the same bytes under it |
| SpoolFiles.TwoJunkFilesInOneInstant | adapters/claude-code/src/spool-files.ts:277-279 | two different broken legacy files of one name in one millisecond leave only the second one's bytes |
| SpoolLedger.StaysUntilPosted | adapters/claude-code/src/spool.ts:109-114 | a batch that was there, stored or taken over is in exactly one directory until a post of it succeeds |
| SpoolLedger.EveryStepIsFair | adapters/claude-code/src/spool-files.ts:205-221 | anywhere in a log, a stored batch got a name under which nothing was owed, and a request sent the batch owed under its name |
| SpoolLedger.ExplainsThen | adapters/claude-code/src/spool.ts:194-254 | logs compose: what accounts for one stretch of a run and for the next accounts for both |
| Spool.SpoolQueue.ReadState | adapters/claude-code/src/spool-files.ts:130-164 | no file is an empty open queue, a readable file is its state, an unreadable one a queue under the corruption circuit; a closed queue is opened exactly when the process dies between setting the unreadable file aside and writing its successor |
| Spool.SpoolQueue.ReconcileNextSequence | adapters/claude-code/src/spool-files.ts:293-307 | the counter becomes the least number above every number in use in any directory |
| Spool.SpoolQueue.QuarantineJunk | adapters/claude-code/src/spool-files.ts:277-279 | everything is kept exactly when the dated name is unused or holds the same bytes; the bytes reach quarantine |
| Spool.SpoolQueue.MigrateBatch | adapters/claude-code/src/spool-files.ts:261-276 | keeps every batch, and leaves a legacy batch in both places exactly when the process dies between writing and removing it |
| Spool.SpoolQueue.MigrateLegacyEntries | adapters/claude-code/src/spool-files.ts:252-290 | wherever it dies, no batch is lost and every legacy batch is in the queue or still where it was |
| Spool.SpoolQueue.PrepareQueue | adapters/claude-code/src/spool-files.ts:310-325 | after repair the counter is above all names, no batch is lost, and an open circuit leaves nothing pending |
| Spool.SpoolQueue.WouldExceedLimits | adapters/claude-code/src/spool-control.ts:59-62 | decides the shared count and byte bound over all three directories |
| Spool.SpoolQueue.HoldQueueFull | adapters/claude-code/src/spool-control.ts:48-56 | holds everything and evicts nothing |
| Spool.SpoolQueue.AppendForState | adapters/claude-code/src/spool-control.ts:65-76 | stores the batch under a name no file had and touches no other batch |
| Spool.SpoolQueue.Save | adapters/claude-code/src/spool-control.ts:82-106 | refused exactly when what the queue holds and takes over leaves no room, with every batch kept; otherwise stored under a new name within both bounds |
| Spool.SpoolQueue.PauseSpool | adapters/claude-code/src/spool-control.ts:145-158 | holds every pending batch under a sticky circuit |
| Spool.SpoolQueue.ResumeSpool | adapters/claude-code/src/spool-control.ts:164-175 | makes every held batch pending and clears the circuit |
| Spool.SpoolQueue.OldestReplayEntry | adapters/claude-code/src/spool.ts:80-99 | selects the oldest entry of the right directory; one that does not decode is moved to quarantine instead |
| Spool.SpoolQueue.QuarantineEntry | adapters/claude-code/src/spool.ts:133-149 | an active entry ends in quarantine with its batch, marked rejected, and nothing else changes |
| Spool.SpoolQueue.RetainRetryEntry | adapters/claude-code/src/spool.ts:117-130 | an active entry is rewritten in place with one more attempt and the retry mark |
| Spool.SpoolQueue.RemoveDispatchedEntry | adapters/claude-code/src/spool.ts:109-114 | removes exactly the active entry of that name |
| Spool.SpoolQueue.Settle | adapters/claude-code/src/spool.ts:219-249 | only a successful post removes its entry; a pause holds the queue, a rejection quarantines, a retry stays |
| Spool.SpoolQueue.Send | adapters/claude-code/src/spool.ts:219-249 | one request a step of life: a dead process sends nothing; otherwise the entry is sent once, counted, and settled as it was answered |
| Spool.SpoolQueue.FlushSpool | adapters/claude-code/src/spool.ts:194-254 | its counters are those of the requests it sent, within the permit, one a turn and ending as the turn says; it stops for one of the loop's reasons; the log accounts for every batch, whatever other processes do meanwhile |
| Spool.SpoolQueue.QueueIfBlocked | adapters/claude-code/src/spool.ts:257-280 | refused exactly when the queue is full, clear exactly when nothing waits and no circuit holds it, otherwise stored under a new name in the right directory; behind an unreadable state file or a saved circuit it never answers clear, holds what it stores, and leaves a saved circuit and nothing pending |
| Spool.SpoolQueue.ShipWithSpool | adapters/claude-code/src/spool.ts:286-324 | delivered exactly when the queue is clear and the post succeeds, refused exactly when the queue is full, otherwise stored under a new name in the right directory; an accepted batch is in the log, and the log accounts for every batch; past an unreadable state file or a saved circuit nothing is delivered, and what is stored is held |
| Spool.SpoolQueue.PostDirectly | adapters/claude-code/src/spool.ts:303-323 | delivered exactly when the post succeeds; otherwise refused exactly when the queue the others left is full, or else a rejected batch is quarantined, a paused one held, a retried one queued |
| Spool.SpoolQueue.RunProcesses | adapters/claude-code/src/spool.ts:194-324 | any run of captures, replays, saves, holds and resumes, each dying anywhere, with the state file lost or broken at any time: each replay sends one request a turn within its permit and nobody else sends, every accepted batch is in the log, and the log accounts for every batch |
| Spool.SpoolQueue.ClosedUntilResumed | adapters/claude-code/src/spool.ts:271-273 | over every run in which nobody resumes and no state file goes missing, a queue with an unreadable state file or a saved circuit stays closed and no capture is delivered past it |
| Spool.SpoolQueue.RunSection | adapters/claude-code/src/spool-control.ts:82-175 | one locked section: it refuses exactly when the queue is full, and a batch it lived to accept is in its log; every section but a resume that finds the queue closed and lives leaves a saved circuit and nothing pending |
| OutboxRuns.ClaimTakesOnlyOpenTenants | storage/src/outbox-file.ts:133-170 | a claim leases within its limits, one row a tenant, each the oldest due row of a tenant with no held row and no unexpired lease |
| OutboxRuns.PerformKeeps | storage/src/outbox-file.ts:81-266 | every operation that carries its lease keeps order, ids, one unexpired lease a tenant and the byte ceiling |
| OutboxRuns.RunKeepsOutbox | storage/src/outbox-file.ts:81-266 | the same over every run with clocks that never go back |
| OutboxRuns.RowsAreNeverLost | storage/src/outbox-file.ts:81-266 | no row is ever deleted or given another payload |
| OutboxRuns.TerminalAcceptsOnlyLeaseless | storage/src/outbox-shared.ts:153-159 | a settled row accepts a settlement exactly when it carries no lease |
| OutboxRuns.TerminalIsFinal | storage/src/outbox-file.ts:177-232 | over well-behaved runs a delivered or dead row never changes |
| OutboxRuns.OldClaimantCannotSettle | storage/src/outbox-shared.ts:153-159 | once superseded, a lease can never settle its row again |
| OutboxRuns.LeaselessFailureKeepsCeilingIff | storage/src/outbox-file.ts:199-232 | a failure reported without a lease keeps the byte ceiling exactly when the row was not delivered yet or its bytes still fit |
| OutboxRuns.LeaselessDeliveryKeepsCeiling | storage/src/outbox-file.ts:177-196 | a delivery reported without a lease always keeps the byte ceiling |
| OutboxRuns.LeaselessSettlementBreaksCeiling | storage/src/outbox-file.ts:199-232 | the failing call: a leaseless failure of a delivered row takes it back past the byte ceiling |
| Outbox.FileOutboxAdapter.Transaction | storage/src/outbox-file.ts:81-110 | a known id gives its row back or a conflict; a new one is refused exactly when its payload does not fit behind everything undelivered and everything accepted so far, and otherwise gives a fresh row; what is committed is exactly the old rows and the new ones, and every accepted input is among them |
| OutboxAnswers.OneMoreAnswer | storage/src/outbox-file.ts:85-104 | one enqueue on the staged rows answers as it should and stages exactly what it accepted |
| OutboxAnswers.AcceptedIsKept | storage/src/outbox-file.ts:88-103 | every accepted enqueue is among the rows kept and the rows made, with its id, tenant and payload |
| Outbox.FileOutboxAdapter.ClaimDispatchable | storage/src/outbox-file.ts:133-174 | leases exactly the specified rows and returns them |
| OutboxAnswers.ClaimLeases | storage/src/outbox-file.ts:152-173 | exactly the claimed rows get the lease id and a lease of the given length from now; every other row stays as it was |
| OutboxAnswers.ClaimSkipsNothing | storage/src/outbox-file.ts:133-173 | no due row of an open tenant is passed over, expired leases included, except for an older row of its tenant, because the limit is reached, or behind a payload that did not fit |
| Outbox.FileOutboxAdapter.MarkDispatched | storage/src/outbox-file.ts:177-196 | settles for the lease owner or changes nothing |
| OutboxAnswers.DeliverySettles | storage/src/outbox-file.ts:177-196 | the lease owner's row, and no other, becomes delivered at the given time; for anyone else nothing changes |
| Outbox.FileOutboxAdapter.MarkFailed | storage/src/outbox-file.ts:199-234 | persists retry, hold or rejection for the lease owner or changes nothing |
| OutboxAnswers.FailureSettles | storage/src/outbox-file.ts:199-234 | the lease owner's row, and no other, counts an attempt and becomes dead when rejected, held under its circuit when paused, and free again at the given time when retried |
| Outbox.FileOutboxAdapter.ResumePaused | storage/src/outbox-file.ts:240-266 | re-arms the first held rows only when every held row names the acknowledged circuit, and says how many |
| OutboxAnswers.ResumesExactly | storage/src/outbox-file.ts:240-266 | refused exactly when a held row of the tenant names another circuit; otherwise the first held rows up to the limit are free now and no other row changes |
| Outbox.FileOutboxAdapter.AssertLease | storage/src/outbox-shared.ts:153-159 | no fault exactly for the lease owner of a leased row, or for no lease on an unleased row |
| RollingWindow.RecordKeepsLimits | storage/src/outbox-dispatcher.ts:36-56 | a send that fits what is left keeps every half-open window within both ceilings |
| RollingWindow.ClosedWindowsHoldIff | storage/src/outbox-dispatcher.ts:39-55 | one more send keeps windows with their first instant within the limits exactly when it fits the one that ends now |
| RollingWindow.AdmittedSendKeepsClosedIff | storage/src/outbox-dispatcher.ts:39-55 | a send the ledger admits keeps them exactly when it still fits with the sends exactly one window ago |
| RollingWindow.ClosedWindowsMayHoldTwoBursts | storage/src/outbox-dispatcher.ts:39-41 | the failing history: with one request a window, two sends one window apart are within the ledger's limits, and a window with its first instant holds both |
| RollingWindow.RollingWindowLedger.RemainingRequests | storage/src/outbox-dispatcher.ts:44-47 | what is left of the requests in the window that ends now |
| RollingWindow.RollingWindowLedger.RemainingBytes | storage/src/outbox-dispatcher.ts:48-51 | what is left of the bytes in the window that ends now |
| RollingWindow.RollingWindowLedger.Record | storage/src/outbox-dispatcher.ts:52-55 | adds one send to the history without forgetting any that still counts |
| Dispatcher.OutboxDispatcher.DispatchBatch | storage/src/ingest-target.ts:302-355 | every attempt leases the one row the queue offers, is recorded in the ledger once with its bytes, and is settled under its own lease; attempts and bytes stay within the permit, the counters are those of the attempts, and every window stays within the policy |
| Dispatcher.OutboxDispatcher.ClaimOne | storage/src/ingest-target.ts:315-323 | leases the one row the queue offers, or changes nothing |
| Dispatcher.OutboxDispatcher.SettleOne | storage/src/ingest-target.ts:326-353 | delivered when accepted, otherwise by the verdict; a settlement that is refused is tried as a retry, and when that is refused as well the pass throws and nothing is counted |
| Dispatcher.OutboxDispatcher.DispatchPasses | storage/src/outbox-dispatcher.ts:58-113 | over any series of serial passes every send is in the ledger once, and every window stays within the policy |
| Dispatcher.GenuineSettlesItsOwn | storage/src/ingest-target.ts:326-353 | an attempt settles the row it claimed, under the lease it claimed it with, and nothing else |
| Dispatcher.AttemptEnds | storage/src/ingest-target.ts:326-353 | while its lease stands, the claimed row ends delivered, or counted once more and free, held or dead by the verdict, and no other row changes; once the lease is gone nothing changes and the pass throws |
| Dispatcher.TallyCounts | storage/src/ingest-target.ts:326-353 | each counter is the number of attempts that ended its way |
| Dispatcher.AttemptsCarryLease | storage/src/ingest-target.ts:334-353 | whatever lease-carrying workers do meanwhile, everything a pass does carries a lease |
| RiskRollup.MaxInWindow | sdks/go/risk_policy.go:140-149 | the two-pointer count is the most matching steps any inclusive window holds |
| RiskRollup.EvaluateFrequencyRules | sdks/go/risk_policy.go:130-167 | every count is that maximum, and a rule fires exactly when some window reaches its threshold |
| RiskRollup.ByTimeSorts | sdks/go/risk.go:397-399 | sorting keeps exactly the steps, ordered by time |
| RiskRollup.RollupEpisodeRisk | sdks/go/risk.go:371-437 | the peak is the largest step score; no step, velocity or frequency score is above the episode score, which is one of them; the level is the band it lies in; the frequency score is that of the reported matches |
| RiskEpisodes.RollupSumsUp | sdks/go/risk.go:421-437 | the same about the specified rollup, which exists exactly for valid rules |
| RiskEpisodes.OneBand | sdks/go/risk.go:226-240 | no score lies in two bands of a sound policy |
| RiskEpisodes.OneStepEpisode | sdks/go/risk.go:400-437 | an episode of one step scores the larger of its score and that score over the normalizer |
| RiskEpisodes.BurstVelocity | sdks/go/risk.go:406-421 | steps that follow one another in less than a window compound to the sum of their scores over the normalizer |
| RiskEpisodes.TwoStepVelocity | sdks/go/risk.go:406-421 | a gap of k whole windows leaves the first step's score times the decay to the k-th power |
| RiskEpisodes.InOrderStays | sdks/go/risk.go:397-399 | steps in order of time are compounded in that order |
| RiskEpisodes.ScoreClamps | sdks/go/risk.go:437-437 | four decimals between zero and one are kept, anything outside is clamped |
| RiskEpisodes.PlainStepScore | sdks/go/risk.go:317-323 | without magnitudes a step scores its base times its reversibility and criticality factors |
| RiskEpisodes.BoostSaturates | sdks/go/risk.go:318-320 | a magnitude of k gives half of its boost and none gives more than all of it |
| RiskRollup.Compound | sdks/go/risk.go:400-420 | the running peak, momentum and maximum are the specified ones |
| RiskTemperature.DerivePolicy | sdks/go/risk_policy.go:393-444 | the knob gives the specified policy, and every policy it gives is sound |
| RiskTemperature.LerpRises | sdks/go/risk_policy.go:183-188 | a knob whose strict end is higher rises with the temperature, after rounding |
| RiskTemperature.HalfIsReference | sdks/go/risk_policy.go:383-386 | temperature 0.5 gives every field of the reference policy exactly |
| RiskTemperature.TemperaturePoliciesAreSound | sdks/go/risk_policy.go:219-262 | every temperature gives a policy that passes the structural check |
| RiskTemperature.KnobAcceptsHundredths | sdks/go/risk_policy.go:194-203 | the knob refuses exactly the temperatures that are no hundredth in range |
| RiskTemperature.StepScoreRises | sdks/go/risk.go:312-337 | a stricter policy never scores a step lower |
| RiskTemperature.MagnitudesRaise | sdks/go/risk.go:312-324 | larger magnitudes never lower a step score, which stays between zero and one |
| RiskTemperature.HotterIsStricter | sdks/go/risk_policy.go:413-427 | turning the temperature up never lowers a step score, velocity, peak, episode score or level |
| RiskTemperature.RulesOnlyRaise | sdks/go/risk.go:423-437 | adding frequency rules never lowers an episode's score or level |
| BatchFiles.CutKeepsFiles | storage/src/file-store.ts:167-179 | wherever a batch is cut off, all chains stay linked and commits name stored records |
| BatchFiles.RunKeepsFiles | storage/src/file-store.ts:83-182 | the same over every run of cut-off operations of one tenant |
| BatchFiles.CompletedBatchReplays | storage/src/file-store.ts:142-152 | a completed batch replays: same records, same commit, nothing appended |
| BatchFiles.CompletedBatchReplaysForever | storage/src/file-store.ts:142-152 | the same after any later run of cut-off operations |
| BatchFiles.RetryOfCutBatchSucceeds | storage/src/file-store.ts:109-182 | a batch cut off at any line can be retried: the retry is never refused |
| BatchFiles.UncutBatchCompletes | storage/src/file-store.ts:165-180 | a batch that was not cut off is completed |
| BatchFiles.CompletedStays | storage/src/file-store.ts:142-152 | a completed batch stays completed whatever lines follow |
| BatchFiles.AppendsOneExactly | storage/src/file-store.ts:198-220 | a record is refused exactly when it has no tenant, no id, or the id of a different stored event; a known one is given back, a new one appended and linked behind the last |
| FileStore.VerifyAuditRecords | sdks/typescript/src/index.ts:625-659 | accepts exactly when every tenant's own records form a chain; otherwise names the first bad record and the first check it fails |
| FileStore.AcceptedRecordsLinkBack | sdks/typescript/src/index.ts:625-659 | a file is accepted exactly when every record hashes to itself and names the hash and sequence of its tenant's record before it, or starts its tenant's chain |
| FileStore.InvariantFilesVerify | storage/src/file-store.ts:188-193 | every file a run can leave passes its verifier |
| FileStore.SecondTenantBreaksChain | storage/src/file-store.ts:198-220 | a second tenant's record in the same file never verifies |
| FileStore.FileEvidenceStore.RecordEvent | storage/src/file-store.ts:83-94 | appends or replays one event, cut off where the process dies |
| FileStore.FileEvidenceStore.RecordEdge | storage/src/file-store.ts:96-107 | appends or replays one edge, cut off where the process dies |
| FileStore.FileEvidenceStore.RecordBatch | storage/src/file-store.ts:109-182 | appends new events, new edges and the commit in that order, cut off where the process dies |
| FileStore.FileEvidenceStore.Verify | storage/src/file-store.ts:188-193 | true exactly when all three chains verify |

## Left out

- SQL text, drivers, the Mongo and Redis stores: each transaction is one atomic step on the tables of
  one tenant; other tenants are other values.
- storage/src/outbox-sql.ts: the same state machine in SQL, which may lease several rows of a tenant at
  once when its limit is above one.
- storage/src/object-archive.ts and storage/src/object-archive-chain.ts: the staging archive covers the
  same idea more strictly.
- Signatures, fingerprints, regular-expression formats of ids, and timestamps: checkpoints and receipts
  are unsigned, ids only need to be non-blank where an empty id changes behaviour, times are integers.
- Redundant columns that repeat a row's own record, and their integrity checks.
- Error texts: an error is one value per check.
- Idempotency keys whose tenant id contains a NUL could share a digest with another pair; within one
  tenant, which is what the model covers, keys are distinct.
- Reads that follow one another under the epoch lease are one step; the writes between them are not.
- Lock acquisition, stale locks, fsync and torn lines: exclusive locks, atomic renames and atomic line
  appends.
- The spool's legacy migration stores a batch twice exactly when it dies between writing and removing it
  (`MigrateBatch`); the migration is not checked against the limits, as in the code.
- Older clients that add legacy files while a run goes on, and two replays at once, which the replay lock
  excludes.
- Lexical order of spool names beyond fifteen digits: names are ordered by number.
- HTTP and response parsing: a request ends in an arbitrary success, retry, pause or rejection.
- The conflict between the old `retryable` flag and a disposition in `markFailed`: one verdict is given.
- Policy overrides and the formatting of policy versions; `sat` needs positive constants, which the
  structural check does not ask for (sdks/go/risk_policy.go:219-262) and the shipped policies have.
- Rounding of binary floating point: risk arithmetic is over the reals, spool counters are exact integers
  with the lost increment modelled.
- The gateway, templates, framework adapters, command line and login code.
