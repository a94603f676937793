# Verification of the command, node stream and framing protocols

This project models five connected parts of cockpit-slurm and proves what they
promise for every input, every interleaving and every run.

* **Commands** (`Ledger`, `RequestLocks`, `CommandService`, `CommandInvariants`,
  `CommandSteps`, `CommandTheorems`, `CommandReplay`, `CommandPermission`,
  `CommandMeanings`, `CommandRuns`, `CommandOwnClaims`, `CommandTwoServices`,
  `CommandLostOutcome`, `CommandOutcome`, `CommandTruth`, `CommandTruthSteps`,
  `CommandAnswers`, `CommandHandleRuns`, `CommandHandle`). The durable ledger is
  a class over a table and an admission gate. The service is a step system: any
  number of handlers with program counters, over any number of service objects,
  with commits that may report an error whether or not they took effect, broken
  reads, reconciliation in the middle of other handlers' work, crashes, failed
  reopenings and expiry. Rows carry an incarnation number, because an expired
  row may be deleted and its key claimed again. Main results: at most one
  execution per incarnation, no execution without a permitting decision,
  ownership of unresolved rows, fencing by reconciliation, stable replay, the
  audit trail, the progress rank, and that every stored record and every reply
  is true: it says what the authorizer ruled and the executor returned for that
  very incarnation. `CommandHandle` is the request handler as a sequential
  program over the ledger, the locks, the authorizer and the executor; it takes
  the steps of the transition system that its contracts name, and what the
  authorizer and the executor were asked is always what that run's log says, so
  the theorems about runs hold of it.
* **Node replication** (`Node`, `NodeCache`, `NodeSynchronizer`, `NodeRegistry`,
  `NodeStreamClient`, `Replication`, `ReplicationSteps`, `ReplicationTheorems`,
  `NodeStreamWire`). Cache, synchronizer, registry and the browser's replica
  function are modelled one by one, and then as one step system in which a
  publication reaches streams one at a time while responses share their bounded
  queues and connections come and go. Main results: a reader never sees an
  inconsistent batch, a registered stream's replica is the cache, and the same
  end to end through the framing of the next part.
* **Framing** (`Framing`, `FrameDecoder`, `FrameCodec`). The incremental decoder
  of the browser and the encoder and decoder of the service over one format.
  Main results: chunking invariance, conservation of bytes, the round trip
  through a writer that takes what it likes, and exactly when the two decoders,
  which check payloads differently, agree.
* **JSON keys** (`JsonValidation`). The duplicate-key validator on token
  streams: exact on trees, sound on arbitrary streams.
* **Replay cache** (`ReplayCache`). Per-connection deduplication.

## Where code and documentation disagree

`docs/architecture/4.4 Implementation-phase5.md` (lines 1381 and 1544) wants an
unknown outcome always reported as a non-retryable error. A row that recovery
moves from running to unknown stores no error payload, and `recordResponse`
then falls through to a retryable internal error (internal/command/service.go:347).
The model follows the code; `UnknownReplay` says exactly when the documented
answer is given, `RecoveredUnknownIsRetryable` shows the other case, and
`OutcomeLostInCrash` gives the run that leads to it.

`TwoServicesCanMix` is a limit of the design rather than a contradiction: a
transition compares the status of a row but not who claimed it, so what ties a
handler to its own claim is the per-command lock of one service object.
`OwnExecutionsExactly` and `SoleOwnersExactly` give the exact condition: no key
may be wanted at two service objects (`KeysApart`). The program creates one
(cmd/cockpit-slurm/main.go:56).

The service refuses unknown fields and repeated keys (internal/protocol/codec.go:94-107)
where the browser's check is looser (src/ipc/framing.ts:178-183), so the two
decoders do not agree on every stream; `DecodersAgree` says on which they do.

## Reading the step systems

A step that is not enabled changes nothing, so every sequence of steps is a run
and the theorems quantify over all sequences. What the environment decides
(clocks, storage faults, the authorizer, the executor, map iteration order,
which branch a `select` takes) is an argument of the step. Fields called history
in a state's declaration are never read by a step's decisions; they exist so that
a theorem can speak about the past. Replication runs are `Safe` when no
generation in them exceeds 2^53 - 1, the largest integer up to which a JavaScript
number counts exactly; `ShortRunsAreSafe` says that every run no longer
than that is.

Functions that the program computes with are also said a second time, case by
case and in terms of their arguments, and the two are proved equal: `Names`,
`Mirrors` and `TakenOver` for node identity and commits, `Rewritten`,
`Quarantined`, `WholeClaim` and `TRANSITIONS` for the ledger, `Ruling`,
`ReturnedWith` and `Replays` for decisions and answers, `Equivalent` for request
fingerprints, `OneFrame` for the frame header.

The classes and the step systems share the functions that say what one
transaction, one enqueue or one commit does: `ReserveTx`, `Matches`, `Merge`,
`Recover` and `Purge` for the ledger, `StreamEnqueue` and `StreamClose` for the
registry, `IsDiff` and `Committed` for the cache.

## Model

| member | source | states |
|---|---|---|
| `Ledger.CommandLedger.Open` | internal/ledger/ledger.go:111-161 | The unexpired rows, pending and accepted ones made authorization-uncertain and running ones unknown as of now, all others unchanged; the gate is open |
| `Ledger.CommandLedger.BlockPersistence` | internal/ledger/ledger.go:346-351 | Closes the admission gate |
| `Ledger.CommandLedger.ReserveAuthorization` | internal/ledger/ledger.go:186-247 | Exact outcome of a claim for every storage fault: incomplete claim, closed gate, conflict with a live row, found or created, commit lost or applied under a reported error; a new row is pending, empty, and lives 2592000 seconds; expired rows are gone |
| `Ledger.CommandLedger.Lookup` | internal/ledger/ledger.go:249-268 | Only an unexpired row is found; a broken read closes the gate, an interrupted one does not |
| `Ledger.CommandLedger.TransitionConflict` | internal/ledger/ledger.go:353-362 | Tells a missing row from a row in another status; a failed read closes the gate |
| `Ledger.CommandLedger.Transition` | internal/ledger/ledger.go:280-338 | A compare-and-swap on the status: reported success exactly when it is one of the nine transitions with what it needs, the gate open, the status as expected and nothing failed; each datum goes to its own field and nothing else changes; what each failure leaves behind |
| `Ledger.CommandLedger.RecoverInterrupted` | internal/ledger/ledger.go:667-682 | Makes pending and accepted rows authorization-uncertain and running ones unknown, leaves the others alone, or reports an error with or without that effect |
| `Ledger.CommandLedger.Reconcile` | internal/ledger/ledger.go:595-632 | Reopens the gate only after integrity, recovery and checkpoint succeeded, over a table with nothing unresolved; terminal rows are unchanged |
| `Ledger.CommandLedger.PurgeExpired` | internal/ledger/ledger.go:270-278 | Deletes expired rows and nothing else |
| `Ledger.MergeEvolves` | internal/ledger/ledger.go:301-319 | An admissible status write raises the rank, keeps a dispatched row dispatched and erases nothing stored |
| `Ledger.RecoverEvolves` | internal/ledger/ledger.go:667-682 | Recovery resolves a row, raises its rank, and neither gives nor takes away a dispatch intent |
| `RequestLocks.RequestLockTable.LockRef` | internal/command/service.go:274-283 | Joining the lock of a key keeps reference counts exact and hands out the lock object all current users share |
| `RequestLocks.RequestLockTable.UnlockUnref` | internal/command/service.go:285-293 | The last user removes the table entry, any earlier one leaves it |
| `RequestLocks.RunKeeps` | internal/command/service.go:274-294 | In every interleaving the count of each lock object is the number of handlers using it |
| `RequestLocks.MutualExclusion` | internal/command/service.go:274-294 | At most one holder per key; same key if and only if same lock object; the table holds exactly the keys in use |
| `RequestLocks.LockNameInjective` | internal/command/service.go:275 | The lock name determines the caller and the command ID, whatever the ID contains |
| `CommandSteps.StepKeeps` | internal/command/service.go:93-254 | Every step of every handler, every commit outcome, reconciliation, crash, reopen and expiry keeps the system invariant |
| `CommandSteps.RunKeeps` | internal/command/service.go:93-254 | The invariant holds after any sequence of steps |
| `CommandSteps.CommitClaimKeeps` | internal/command/service.go:169-178 | A claim commit, whatever it reports, keeps the invariant, also over expired rows it deletes and replaces |
| `CommandSteps.CommitMoveKeeps` | internal/command/service.go:180-249 | So does a status commit, whatever it reports and whatever another handler did to the row meanwhile |
| `CommandSteps.RecoverRowsKeeps` | internal/ledger/ledger.go:607-612 | So does recovery while other handlers are in flight |
| `CommandSteps.ReopenKeeps` | internal/ledger/ledger.go:145-160 | So does reopening after a crash, also when it fails half-way |
| `CommandTheorems.AtMostOnce` | internal/command/service.go:153-223 | The executor and the authorizer are called at most once per row incarnation, the executor only by the handler whose own running commit was reported successful |
| `CommandTheorems.NoDispatchCertificate` | internal/ledger/ledger.go:378-389 | A row without dispatch intent was never dispatched in its incarnation; a dispatched one stays running, succeeded, failed or unknown |
| `CommandTheorems.Ownership` | internal/command/service.go:113-253 | Behind an open gate every unresolved row belongs to a live handler whose program counter expects exactly its status |
| `CommandTheorems.StepRows` | internal/ledger/ledger.go:280-338 | Between any two moments a surviving incarnation is in a later state of itself, and dispatch intent appears only on accepted rows |
| `CommandTheorems.RowsOnlyEvolve` | internal/ledger/ledger.go:305-319 | Over any run from any reachable state a row moves only forward, freezes once terminal, and no audit field that has a value ever changes it |
| `CommandTheorems.ChangesBounded` | internal/ledger/ledger.go:378-389 | The number of status changes still to come is bounded by the rank that is left |
| `CommandTheorems.ThreeChangesAtMost` | internal/ledger/ledger.go:378-389 | An incarnation changes status at most three times in any run |
| `CommandTheorems.SettledForever` | internal/ledger/ledger.go:595-632 | An incarnation without a durable running intent and without an unresolved row is never dispatched afterwards |
| `CommandTheorems.ReconcileFences` | internal/ledger/ledger.go:595-632 | A reconciliation that opens the gate fences every handler in flight whose running intent had not committed |
| `CommandReplay.ClosedGateAdmitsNothing` | internal/ledger/ledger.go:193-197 | A claim or transition that starts with the gate closed changes nothing, and its handler calls nobody in any later run |
| `CommandTheorems.AuditTrail` | internal/ledger/ledger.go:284-295 | What every reachable row records: admin level and metadata from accepted on, execution identity from running on, an error payload for refusals and failures |
| `CommandTheorems.StableReplay` | internal/command/service.go:325-348 | All answers ever built from a terminal record of one incarnation are the same, and the one the stored row still gives |
| `CommandTheorems.OwnersAnswer` | internal/command/service.go:225-253 | The owner whose final commit is reported successful returns exactly what a replay of the row returns |
| `CommandMeanings.DecideMeans` | internal/command/service.go:180-212 | A clear refusal leads to denied and is final; a failed lookup, a decision about somebody else or by no administrator leads to authorization-failed and is retryable; a permission to accepted with its metadata |
| `CommandMeanings.ConcludeMeans` | internal/command/service.go:223-253 | Success leads to succeeded and an answer with the target node and the requested state, rejection to failed, uncertainty to unknown, the last two not retryable |
| `CommandMeanings.RecordResponseMeans` | internal/command/service.go:325-348 | What a record of each status is answered with, and nothing else |
| `CommandAnswers.StepTruth` | internal/command/service.go:93-254 | Every step keeps every stored record and every reply true |
| `CommandAnswers.EveryRecord` | internal/command/service.go:169-253 | In every run where every key is wanted at one service, each row is the account of its own incarnation: the claim it was inserted for, the ruling the authorizer gave, the identity its request was to run under, the outcome the executor returned |
| `CommandAnswers.RowsFollowDecisions` | internal/command/service.go:180-212 | There, a row past authorization is denied exactly on a clear refusal, authorization-failed exactly on any other non-permission, and accepted or further exactly on a permission; no row gets past authorization without a ruling |
| `CommandAnswers.EveryReply` | internal/command/service.go:93-375 | There, every reply any handler gives is true of an incarnation of its own request, of another request under its command ID, or is one of the errors that say nothing about one |
| `CommandAnswers.SuccessIsReal` | internal/command/service.go:225-253 | There, who is told succeeded asked for a command that the executor reported as succeeded, and is told its own command ID, node and state |
| `CommandAnswers.RefusalIsFinal` | internal/command/service.go:180-201 | There, who is told that authorization was denied, failed in the lookup, or has an unknown outcome asked for an incarnation that is never dispatched, then or later |
| `CommandReplay.FinderCallsNobody` | internal/command/service.go:350-375 | A handler that found an existing row has called neither the authorizer nor the executor, and never will, in any run |
| `CommandReplay.ReplayCallsNobody` | internal/command/service.go:350-375 | A handler that waits for a row, repairs or leaves makes no call in any run that follows |
| `CommandReplay.DifferentFingerprint` | internal/command/service.go:120-123 | A row found under another fingerprint, by the lookup, a poll or the claim, is left alone and answered with a conflict; the handler calls nobody in any later run |
| `CommandTheorems.UnknownReplay` | internal/command/service.go:337-347 | An unknown outcome replays as the non-retryable command-outcome-unknown error if and only if its owner stored it |
| `CommandTheorems.RecoveredUnknownIsRetryable` | internal/command/service.go:347 | A running row that recovery makes unknown has no stored payload and replays as a retryable internal error |
| `CommandLostOutcome.OutcomeLostInCrash` | internal/command/service.go:347 | A concrete run for every request that gets to a claim: executed once, lost in a crash, recovered as unknown, replayed as retryable |
| `CommandOwnClaims.ExecutesOwnApprovedClaim` | internal/command/service.go:169-223 | Where every key is wanted at one service, every execution is of the claim its own handler inserted and the authorizer allowed |
| `CommandTheorems.SameLockExactly` | internal/command/service.go:274-283 | Two handlers share a lock exactly if they are at one service object and want one command ID of one caller |
| `CommandOwnClaims.SoleOwner` | internal/command/service.go:113-114 | There, at most one handler works on the row of a key |
| `CommandTwoServices.TwoServicesCanMix` | internal/command/service.go:274-294 | Any two services that want one key: a concrete run has both at work on its row and executes one request on the row of the other |
| `CommandTwoServices.OwnExecutionsExactly` | internal/command/service.go:274-294 | Over a set of arrivals every run executes own approved claims only, if and only if no key is wanted at two services by requests that get to a claim |
| `CommandTwoServices.SoleOwnersExactly` | internal/command/service.go:274-294 | Over a set of arrivals every run has at most one handler at work on a row, if and only if the same holds |
| `CommandPermission.AcceptsExactlyPermitted` | internal/command/service.go:180-201 | A handler goes on to the accepted transition exactly on a decision that allows this requester this capability as a current administrator |
| `CommandPermission.OnlyPermittedExecutions` | internal/command/service.go:180-223 | Over any number of services every executor call goes back to a permitting decision the same handler got for the same claim |
| `CommandOutcome.StoredOutcomeIsExecutors` | internal/command/service.go:223-253 | Where every key is wanted at one service, a stored success, failure or owner-written unknown is what the executor reported for that very incarnation |
| `CommandHandle.Service.Handle` | internal/command/service.go:93-254 | The sequential program for one request: it continues a run of the step system whose log is what authorizer and executor were asked; at most one execution, of this claim, after authorization and with the row showing it; a closed gate lets nothing through; the reply is true |
| `CommandHandle.Service.HandleAll` | internal/command/service.go:93-254 | Any number of requests in a row: at most one execution each, and the executor was never given the same incarnation twice, by this process or an earlier one |
| `CommandHandle.Service.Perform` | internal/command/service.go:180-253 | Authorize, commit accepted, commit running, execute, commit the outcome: all commits but the last were reported successful, the executor was called exactly when there were three, and only on a permission; a committed refusal leaves the row and the reply that the decision calls for, a committed outcome those that the executor's return calls for; otherwise the persistence error |
| `CommandHandle.Service.AwaitRecord` | internal/command/service.go:350-375 | A decided record, the first or a later one of the same row and fingerprint, is answered with what its status calls for: running as running, uncertain as authorization-outcome-unknown; an undecided one by one of three refusals; calls nobody |
| `CommandHandle.Service.PersistenceError` | internal/command/service.go:377-390 | With the gate closed exactly one reconciliation is attempted, with it open none; the answer is the same either way and no dispatch intent is taken away |
| `CommandHandle.Service.Reserve` | internal/command/service.go:169-178 | A claim through the ledger object appends entering the writer and the claim commit to the run, with the same table, gate and report |
| `CommandHandle.Service.Move` | internal/ledger/ledger.go:280-338 | A transition through the ledger object appends entering the writer and the status commit, with the same table, gate and report |
| `CommandHandle.Service.Reconcile` | internal/ledger/ledger.go:595-632 | A reconciliation through the ledger object appends the four reconciliation steps in a row, with the same table and gate |
| `CommandHandle.Service.Validate` | internal/command/service.go:125-151 | Each failed check has its own refusal; without one the handler goes on exactly if the execution user and boundary are known |
| `Node.SortNodeChanges` | internal/resource/node_change.go:35-39 | In place: a permutation of the changes in identity order |
| `Node.SortedStrictly` | internal/resource/node_change.go:35-39 | Changes of distinct identities come out strictly ordered |
| `Node.BeforeMeans` | internal/resource/node_change.go:35-39 | The first character that differs decides, and a proper prefix comes first |
| `Node.IdentityNames` | internal/resource/node.go:33-38 | A node is known by its node name, and by its metadata name only without one |
| `Node.MappedFields` | internal/resource/node.go:68-101 | Every reported field reaches its own place, absent ones are empty, and the name falls back on hostname and address |
| `NodeCache.Cache.ReplaceSnapshot` | internal/resource/node_cache.go:48-103 | Afterwards the cache mirrors the listing in specification and status; the generation stays exactly if it did before, and else is the next one; unchanged nodes are kept as they were, changed ones are stamped, and the batch is the sorted diff whose every change is so |
| `NodeCache.Cache.Snapshot` | internal/resource/node_cache.go:105-114 | Lists the cached nodes, each once |
| `NodeCache.CollectChanges` | internal/resource/node_cache.go:57-72 | Exactly one raw change per changed key, in whatever order the maps are walked |
| `NodeCache.StampAndSort` | internal/resource/node_cache.go:89-94 | Stamping and sorting the collected slice in place gives the diff |
| `NodeCache.StampedDiff` | internal/resource/node_cache.go:89-94 | Whatever order the changes were collected in, stamped and sorted they are the diff |
| `NodeCache.DiffUnique` | internal/resource/node_cache.go:48-103 | Two commits of the same change publish the same list: map iteration order leaves no trace |
| `NodeCache.MirrorsIndex` | internal/resource/node_cache.go:48-103 | Nothing differs exactly if the cache has the listed nodes and no others, each with the listed specification and status, the last listing of a name counting |
| `NodeCache.CommittedTakesOver` | internal/resource/node_cache.go:78-94 | What is committed mirrors the listing: a node listed as it was keeps its metadata, any other gets the new generation and nothing else |
| `NodeCache.ValidateNodeSnapshot` | internal/resource/node_synchronizer.go:101-114 | Accepts exactly the listings with non-empty distinct identities, and names a culprit otherwise |
| `NodeSynchronizer.Synchronizer.Refresh` | internal/resource/node_synchronizer.go:50-74 | A failed, cancelled or invalid refresh changes neither cache nor streams; otherwise the cache mirrors the listing in every specification and status, the generation stays exactly if it did before, and commit and publication agree on one batch |
| `NodeStreamClient.ApplyNodeStreamMessage` | src/ipc/node-stream.ts:11-70 | The loop over a JavaScript Map computes the specification function, with each of its errors |
| `NodeStreamClient.AcceptsExactly` | src/ipc/node-stream.ts:28-69 | A batch is accepted exactly after a baseline, as the next generation, when it is well formed, names no node twice, adds only absent and updates or removes only present nodes; the replica then is the patched one |
| `NodeStreamClient.BaselineExactly` | src/ipc/node-stream.ts:11-26 | A snapshot is accepted exactly once, when its nodes are well formed and none is named twice |
| `NodeStreamClient.AppliedExactly` | src/ipc/node-stream.ts:37-69 | The loop over the changes succeeds exactly if each fits the old replica, and does each change and nothing else |
| `NodeStreamClient.PatchApplies` | src/ipc/node-stream.ts:37-69 | Applying a patch to any listing of the old node map succeeds and lists exactly the new one |
| `NodeStreamClient.FromEntriesKeeps` | src/ipc/node-stream.ts:37 | Rebuilding the Map from a replica loses and reorders nothing |
| `NodeRegistry.NodeStreamRegistry.Register` | internal/stream/node_registry.go:57-89 | A stream is registered exactly when its baseline went into its queue; otherwise it is closed |
| `NodeRegistry.NodeStreamRegistry.Publish` | internal/stream/node_registry.go:91-119 | Every registered stream gets the batch at the end of its queue or is removed and closed; nobody else is touched |
| `NodeRegistry.NodeStreamRegistry.Unregister` | internal/stream/node_registry.go:121-128 | Removes one stream and leaves its connection open |
| `NodeRegistry.NodeStreamRegistry.CloseAll` | internal/stream/node_registry.go:130-144 | Removes and closes every registered stream |
| `ReplicationSteps.ListingIsFit` | internal/resource/node.go:68-101 | What the adapter maps and the synchronizer accepts satisfies the browser's node checks and is keyed alike on both sides |
| `ReplicationSteps.DiffIsPatch` | internal/resource/node_cache.go:48-103 | The committed diff is a patch from the old map to the new one |
| `ReplicationSteps.DiffApplies` | internal/resource/node_cache.go:48-103 | The batch passes the registry guard and the payload checks, and the client function turns any listing of the old map into one of the new map |
| `ReplicationSteps.SnapshotIsBaseline` | internal/stream/node_registry.go:68-87 | A snapshot in any order is a valid baseline for its generation |
| `ReplicationSteps.StepKeeps` | internal/ipc/server.go:239-312 | Every refresh, registration, enqueue, write, response, cancellation, unregistration and shutdown step keeps the replication invariant |
| `ReplicationSteps.RunKeeps` | internal/ipc/server.go:239-312 | The invariant holds after any sequence of steps |
| `ReplicationSteps.ShortRunsAreSafe` | src/ipc/framing.ts:57-59 | Generations stay safe integers for as long as there are not more steps than safe integers |
| `ReplicationTheorems.FoldExpected` | src/ipc/node-stream.ts:11-70 | A baseline followed by consecutive batches folds without an error to the node map of its last generation |
| `ReplicationTheorems.ReplicaEquality` | internal/resource/node_cache.go:29-46 | In every run a registered stream's replica equals the cache: generation, node map and node generations |
| `ReplicationTheorems.ReaderNeverThrows` | src/ipc/node-stream.ts:11-70 | Any prefix of what any client was ever sent folds without an error into a node map the cache really had |
| `ReplicationTheorems.TakenIsPrefix` | internal/ipc/server.go:334-357 | What a writer took off the queue is such a prefix |
| `ReplicationTheorems.GapFree` | internal/stream/node_registry.go:57-119 | One snapshot, then every later batch, none skipped or repeated, within the queue bound |
| `ReplicationTheorems.PublishToOne` | internal/ipc/server.go:263-272 | A stream keeps its registration exactly when its queue had room and its connection was alive |
| `ReplicationTheorems.RunSilent` | internal/stream/node_registry.go:91-128 | A stream that lost its registration is never sent another event |
| `ReplicationTheorems.OverflowCloses` | internal/stream/node_registry.go:106-118 | A full shared queue ends the stream: nothing is published to it afterwards, and it is closed once the publication is over |
| `ReplicationTheorems.StepsMatchPublish` | internal/stream/node_registry.go:91-119 | Serving streams one by one in any order and closing the slow ones has the effect the Publish method states |
| `ReplicationTheorems.StepMatchesRegister` | internal/stream/node_registry.go:57-89 | A registration step queues the baseline and registers, or closes the stream, as the Register method states |
| `ReplicationTheorems.RespondDoes` | internal/ipc/server.go:263-305 | A response is queued exactly when the connection is alive and its queue has room, and ends the connection otherwise |
| `ReplicationTheorems.CloseAllEnds` | internal/stream/node_registry.go:130-144 | After a shutdown begins no stream that was registered is sent another event, and each is closed once its turn came |
| `ReplicationTheorems.StepsMatchCloseAll` | internal/stream/node_registry.go:130-144 | Dropping all streams and closing them one by one in any order has the effect the CloseAll method states |
| `ReplicationTheorems.GenerationOfNode` | internal/resource/node_cache.go:78-93 | Every cached node carries the generation at which its state last changed |
| `ReplicationTheorems.RefreshDiscipline` | internal/resource/node_cache.go:48-103 | A refresh moves the generation by one exactly when the listing differs, and then the cache holds the listing |
| `Framing.HeaderOfLength` | src/ipc/framing.ts:161-162 | The four header bytes and the length determine each other |
| `Framing.HeaderPlaces` | src/ipc/framing.ts:126-146 | The header is the length with its highest byte first |
| `Framing.DrainOne` | src/ipc/framing.ts:151-191 | A buffer with no more than one frame: the length is read highest byte first, an illegal one stays in front, a whole frame gives its payload's meaning |
| `Framing.Conservation` | src/ipc/framing.ts:151-191 | Bytes pushed are the consumed frames and then the buffer, also when a push throws |
| `Framing.Meanings` | src/ipc/framing.ts:173-187 | Each frame delivered is the meaning of its payload; the error is the next payload's or the length in front |
| `Framing.Carry` | src/ipc/framing.ts:160-171 | After a push that does not throw less than a frame is left, at most 4194307 bytes |
| `Framing.DrainAppend` | src/ipc/framing.ts:151-191 | Decoding a stream in two parts is decoding it at once |
| `Framing.ChunkingInvariance` | src/ipc/framing.ts:151-191 | Whatever the chunks, some push throws exactly when pushing the whole stream would; frames and carry agree, or are a prefix before a throw |
| `Framing.ThrowLosesOnlyItsPush` | src/ipc/framing.ts:157-191 | What is delivered before a throw is what the chunks before that push amount to |
| `Framing.RoundTrip` | internal/protocol/codec.go:25-63 | Framed valid payloads, and possibly a part of one more frame, come out as exactly their values in any chunking |
| `FrameDecoder.EncodeFrame` | src/ipc/framing.ts:126-146 | Four bytes of length, highest first, and the payload in one array; refuses exactly the illegal sizes |
| `FrameDecoder.Decoder.Push` | src/ipc/framing.ts:151-191 | One push computes the specification: frames, carry, and what each error leaves in the buffer |
| `FrameCodec.WriteFull` | internal/protocol/codec.go:51-63 | Through any writer: all of it on success, some prefix on failure |
| `FrameCodec.Encode` | internal/protocol/codec.go:25-49 | On success exactly four bytes of length, highest first, and the payload; nothing for an illegal size; a part of that frame when the writer fails |
| `FrameCodec.WriteConnection` | internal/ipc/server.go:334-357 | The wire carries whole frames in order, then at most a part of the one that failed |
| `FrameCodec.Decode` | internal/protocol/codec.go:74-97 | Reads one frame from a connection that may end anywhere: the length highest byte first, then exactly that many bytes |
| `FrameCodec.DecodersAgree` | internal/protocol/codec.go:74-107 | With a parser for each end, service and browser make the same frames of a byte stream and stop for corresponding reasons if and only if the parsers agree on every payload consumed |
| `FrameCodec.DecodersPart` | src/ipc/framing.ts:173-187 | Up to the first payload on which the parsers differ, or which both refuse, both ends deliver the same frames, and both consume it |
| `FrameCodec.StricterDeliversPrefix` | internal/protocol/codec.go:94-107 | If the browser accepts alike whatever the service accepts, what the service delivers is a prefix of what the browser delivers |
| `NodeStreamWire.WireToReplica` | internal/ipc/server.go:334-357 | From the writer to the replica: the bytes written for a stream, pushed in any chunks, deliver exactly its messages, and their events fold into a node map the cache really had |
| `JsonValidation.ConsumeJSONValue` | internal/protocol/json_validation.go:21-75 | The recursion over the decoder consumes what the specification function says |
| `JsonValidation.ValidateUniqueJSONKeys` | internal/protocol/json_validation.go:10-19 | Accepts exactly the texts that are one tree without a repeated key and nothing more |
| `JsonValidation.ConsumeTree` | internal/protocol/json_validation.go:21-75 | On any tree's tokens and any rest: success exactly when no object at any depth repeats a key, and then exactly the tree is consumed |
| `JsonValidation.ConsumedIsTree` | internal/protocol/json_validation.go:21-75 | Whatever tokens are accepted are those of some tree without repeated keys |
| `JsonValidation.MembersUniqueMeans` | internal/protocol/json_validation.go:33-47 | The set built along an object accepts exactly pairwise distinct keys |
| `JsonValidation.TreesReadOnce` | internal/protocol/json_validation.go:21-75 | Tokens determine the tree and where it ends |
| `ReplayCache.RequestReplayCache.Dispatch` | internal/ipc/server.go:53-82 | Serves one request as specified and asks the dispatcher exactly when the request is new, well formed and within the limit |
| `ReplayCache.DispatchedOnce` | internal/ipc/server.go:64-81 | At most one dispatch per message ID on a connection |
| `ReplayCache.DispatchesCounted` | internal/ipc/server.go:73-81 | As many dispatches as entries, never more than 4096 |
| `ReplayCache.LaterUse` | internal/ipc/server.go:64-72 | A later request that says the same gets the first response unchanged, any other a refusal; the entry stays |
| `ReplayCache.ClosesAtLimit` | internal/ipc/server.go:73-78 | The connection is closed exactly at a new well-formed message ID after 4096 dispatches |
| `ReplayCache.CanonicalMeans` | internal/ipc/server.go:84-104 | Two payloads have one canonical form exactly if they say the same: equal literals, arrays item by item, objects name by name |
| `ReplayCache.FingerprintsMean` | internal/ipc/server.go:84-104 | Two requests have one fingerprint exactly if protocol, version and type are equal and their payloads say the same |
| `ReplayCache.MemberOrderIrrelevant` | internal/ipc/server.go:84-104 | The fingerprint does not depend on the order of object members |

## Left out

- SQLite, its pragmas, schema migrations, file modes and paths: the table is a map with atomic transactions; integrity check and checkpoint are yes-or-no arguments.
- CommandHandle.Service.Handle: the sequential program runs one request at a time and lets the context end after a given number of polls; interleavings and unbounded waiting are in the step system only.
- The checks between the lookup and the claim (operation, registry entry, arguments, node cache) are one step that passes or gives one of their three refusals, each a small finite table; the execution boundary is checked as in the code. The two checks before the gate is read are not steps at all.
- The final status commit and the answer built from it are one step; so are a failed commit and the closing of the gate that follows it under the write lock.
- Request fingerprints, request payloads and the replay cache's fingerprint are values rather than SHA-256 sums; a collision is not modelled.
- Stored payloads are typed values; marshalling them does not fail, and texts are valid Unicode.
- Clocks are arguments and need not advance; polling in awaitRecord may go on or be cancelled at any turn, and its liveness is not stated.
- requestNodeRefresh (internal/command/service.go:256-268) asks for an ordinary refresh and appears only as one.
- Node.SortNodeChanges: the library sort is written out as an insertion sort; which of several changes of one identity comes first is not stated, since there is only one.
- Streams are named by number and their connections are values in a table, so aliasing of stream objects is not captured; message IDs of stream envelopes only count.
- Marshalling an event envelope does not fail, and numbers keep their value in JSON (node memory sizes beyond 2^53 are rounded by a browser).
- The client's check that observedAt parses as a date, and its checks of optional field types, hold by typing.
- Mapping of Slurm state names to a summary and flags (internal/resource/node.go:116-175) is part of what the adapter is given.
- Node and change lists reach ReplaceSnapshot only through the synchronizer while streams exist; a nil publisher is not modelled.
- JSON lexing, string decoding and base encodings: the validator starts from tokens, the framing from a function that gives a payload its meaning.
- The conversion of strings and typed arrays to bytes at the start of a push.
- Sockets, D-Bus, peer credentials, the channel relay, `scontrol` and `sacctmgr`.
- src/ipc/client.ts, the operation registry, the capability resolver, validators of names, user interface and packaging: they would add only easy members.
