# CollabHub in Dafny

A model of CollabHub's collaboration protocol, and proofs about it. CollabHub keeps one totally ordered log of
canonical patches per document. One fenced worker at a time extends it, recovery rebuilds its state from a snapshot
and the records after it, gateways stream it, and optimistic clients follow it.

`dafny verify dfyconfig.toml` checks everything. Automatic induction is switched off on every lemma, so each
inductive proof is written out.

## Layout

| part | files |
|---|---|
| values | `Results`, `Json`, `Ordering` |
| commit log | `CommitStore` (tables and transactions), `RoomWorker` (a warm room), `CommitLog` (the system of store, workers and messages in flight, and its invariant), `CommitSafety`, `CommitAnswers`, `SchemaLabels`, `EndToEnd` |
| shared pipeline | `PayloadLimits`, `Pipeline` |
| client and gateway | `Client`, `ClientSafety`, `Gateway`, `GatewayStream` |
| standalone server | `Standalone`, `StandaloneRecovery`, `StandaloneHistory`, `RoomCache`, `RoomEvictions` |
| JSON patches | `JsonPointer`, `JsonPatch`, `ModelDiff`, `StableString`, `ListOrder` |
| block editor | `BlockSequence` (what commands mean), `BlockPatches` (the pack's patches), `BlockDiff` (the compiler) |
| example packs | `EntityPatches`, `GraphDomain`, `DraftDomain`, `DraftRuns`, `DraftKeys` |
| smaller cores | `SchemaMigration`, `RateLimiter` |

Objects that the source updates in place are classes whose methods are proved equal to functions on values; the
theorems are about those functions, over all runs. In the state machines each SQL transaction, each `loadRoom` and
each stretch of a handler between two awaits is one step, and messages may be lost, repeated and delayed without
bound.

## What the proofs found

- **Schema labels** (`CommitSafety.ReloadKeepsSchemas`, `SchemaLabels.StaleReloadMislabels`). A worker's `reload`
  does not refresh `schemaVersion`. A fenced room that reloads after a migration then saves the new state under the
  old label, and the head pointer can come to rest on that row (`CommitSafety.PointerMislabelled`). Recovery is not
  affected, since `loadRoom` reads the head's schema and the row's state is the right one.
- **Dropped inherited names** (`ModelDiff.RoundTrip`, `ModelDiff.DroppedToString`). `diffValue` reads `after[key]`
  without asking for an own property, so a command that removes a key such as `toString` makes the differ throw.
- **Late saves across a migration** (`StandaloneRecovery.LateOldSave`, `StandaloneRecovery.LateOldSaveAfterCommit`).
  In the standalone server a snapshot of the old schema that reaches the storage after a migration overwrites the
  migrated one. The next load replays what has been committed since on the old state and migrates the result.
- **Sweeps before insertion** (`RoomCache.LeasesProtect`, `RoomCache.SecondSweepReplacesLeased`). On a full cache
  `session` awaits a sweep between looking a room up and inserting its entry. Of two callers that overlap there, the
  second replaces the entry that the first may have leased by then. Two live sessions then append to one log
  (`StandaloneRecovery.TwoSessionsForkTheLog`).
- **Logs without a snapshot** (`StandaloneRecovery.MigrationOpensEra`, `StandaloneRecovery.OldPatchesOnNewInitial`).
  Under a newer pack such a log is replayed from the newer pack's initial state and then migrated.
- **Returning schemas** (`StandaloneHistory.ReloadedHistoryIsExact`, `StandaloneHistory.ReturningSchemaHidesVersion`).
  `load` filters the history by schema version, so a version that returns after another leaves a gap, and
  `historyComplete` holds although an operation is missing.
- **Repeated migrations** (`CommitLog.OwnerMigrates`, `SchemaLabels.ThirdMigrationThrows`). The key of
  `collabhub_schema_history` refuses a second migration to one schema at one version, so a document that went from A
  to B and back cannot be activated under B again before its next commit.
- **Retries** (`StandaloneRecovery.RetryIs`, `StandaloneRecovery.SnapshotBeforeRetry`). `load` does not clear
  `operations`, so a retry after a failed load can list an operation twice.
- **Moves without room** (`DraftRuns.MoveCommutes`, `DraftKeys.RestoredKeyLeavesNoRoom`). `rankBetween` and
  `applyDraftCommand` give different keys when the neighbours' keys are equal, falling or empty, or the first key is
  not positive. The application's commands never lead there (`DraftKeys.RunsAreTheDomain`); `entity.restore` can.
- **Unaddressable ids** (`GraphDomain.CompilerCommutes`, `DraftDomain.SectionCommandsCommute`,
  `BlockDiff.DiffBlockNoteDocuments`). The packs accept an id of more than 512 characters, the first two also an empty
  one; the patch applier refuses it, so such a command is rejected. In the block editor every later command that names
  the block is rejected as well.

## Model

| member | source | states |
|---|---|---|
| CommitStore.PostgresCommitStore.Ensure | packages/server-distributed/src/postgres-store.ts:152-173 | creates head and version-0 snapshot once; a second call changes nothing |
| CommitStore.PostgresCommitStore.Claim | packages/server-distributed/src/postgres-store.ts:175-185 | raises the epoch and names the owner; fails without a document |
| CommitStore.PostgresCommitStore.Record | packages/server-distributed/src/postgres-store.ts:236-263 | stores a receipt for the owner only, never over an existing one |
| CommitStore.PostgresCommitStore.CommitOperation | packages/server-distributed/src/postgres-store.ts:265-326 | duplicate, collision, fenced, conflict, constraint violation or commit, in that order; a commit writes WAL row, receipt, outbox row and head together |
| CommitStore.PostgresCommitStore.Migrate | packages/server-distributed/src/postgres-store.ts:328-371 | for the owner at the expected version and schema: rewrites the snapshot at the current version, moves schema and pointer and records the migration; throws, changing nothing, when this migration is on record |
| CommitStore.PostgresCommitStore.Save | packages/server-distributed/src/postgres-store.ts:373-393 | unfenced insert-if-absent; moves the pointer forward only under the head's schema |
| CommitStore.PostgresCommitStore.LockRows | packages/server-distributed/src/postgres-store.ts:425-439 | locks the first `limit` undelivered rows whose lease has run out, hands them out in table order, and leaves every other row alone |
| CommitStore.PostgresCommitStore.MarkDelivered | packages/server-distributed/src/postgres-store.ts:441-443 | the row of that id can never be claimed again, every other row is untouched, and no event changes |
| CommitStore.PostgresCommitStore.CompactTables | packages/server-distributed/src/postgres-store.ts:445-507 | deletes WAL rows at or below the cut, expired receipts and delivered outbox rows, and old snapshots but not the one at the pointer |
| RoomWorker.WarmRoom.constructor | packages/server-distributed/src/worker.ts:213-222 | activation folds the WAL over the snapshot and keeps the last 500 operations |
| RoomWorker.WarmRoom.Reload | packages/server-distributed/src/worker.ts:305-312 | replaces version, state and history but not the schema version |
| RoomWorker.WarmRoom.Committed | packages/server-distributed/src/worker.ts:283-287 | moves the room by its own commit; the history keeps at most 500 entries |
| RoomWorker.WarmRoom.Attempt | packages/server-distributed/src/worker.ts:269-300 | one attempt: the request it sends, the room it leaves and the reply, for every outcome of the store |
| RoomWorker.WarmRoom.Process | packages/server-distributed/src/worker.ts:260-303 | a receipt answers without sending anything; otherwise at most two attempts, the second from the reloaded room |
| RoomWorker.WarmRoom.PersistRejection | packages/server-distributed/src/worker.ts:314-326 | a rejection is answered as stored, as the receipt already there, or as a dropped room |
| RoomWorker.AnswersComeFromTheStore | packages/server-distributed/src/worker.ts:260-326 | every answer a client gets is a commit, a duplicate, a stored rejection or a receipt under its fingerprint |
| CommitLog.RecoveryIsExact | packages/server-distributed/src/postgres-store.ts:187-225 | in every safe state the pointer's snapshot exists, the WAL rows after it are all there in order, none is older than the current schema era, and folding them gives exactly the canonical state |
| CommitLog.DeliverCommitStep | packages/server-distributed/src/postgres-store.ts:265-326 | a commit delivered late, twice or without its reply arriving keeps the invariant |
| CommitLog.OwnerMigrates | packages/server-distributed/src/postgres-store.ts:88-97 | an owner's migration takes effect if and only if the document was not migrated to that schema at this very version before; otherwise, and when fenced, nothing changes |
| SchemaLabels.ThirdMigrationThrows | packages/server-distributed/src/postgres-store.ts:353-358 | a run in which migrating A to B, back to A and to B again at one version throws |
| CommitLog.MigrateStep | packages/server-distributed/src/worker.ts:223-249 | migration on activation keeps the invariant, whether or not its reply arrives |
| CommitLog.DeliverSaveStep | packages/server-distributed/src/postgres-store.ts:373-393 | a snapshot save of any age, from any worker, keeps the invariant |
| CommitLog.CompactStep | packages/server-distributed/src/postgres-store.ts:445-507 | compaction under any retention policy keeps the invariant |
| CommitLog.ClaimStep | packages/server-distributed/src/postgres-store.ts:175-185 | a claim turns every older session into one that is fenced but still holds a true state |
| CommitLog.ReloadStep | packages/server-distributed/src/worker.ts:305-312 | a room reloaded after a conflict, even a fenced one, holds the true current state |
| CommitLog.AdvancedOK | packages/server-distributed/src/worker.ts:283-287 | the worker's own copy after a commit is the canonical state of the new version, with its history a contiguous suffix of the log |
| CommitLog.StepKeepsInvariant | packages/server-distributed/src/worker.ts:213-312 | every step of store and workers keeps the invariant |
| CommitLog.EveryRunIsSafe | packages/server-distributed/src/postgres-store.ts:187-225 | the invariant holds in every reachable state of any number of interleaved workers |
| CommitSafety.StaleWritersAreHarmless | packages/server-distributed/src/postgres-store.ts:265-326 | over whole runs versions count up without a gap, earlier entries never change, and whatever is logged after a claim carries an epoch no older |
| CommitSafety.FencedWriterChangesNothing | packages/server-distributed/src/postgres-store.ts:282-285 | no commit, migration or receipt under an older claim changes the store |
| CommitSafety.SavesAndCompactionAreInvisible | packages/server-distributed/src/postgres-store.ts:373-393 | neither a snapshot save nor compaction changes what recovery returns |
| CommitSafety.RecoveryFollowsCommit | packages/server-distributed/src/postgres-store.ts:187-225 | a commit changes what recovery returns by exactly its patches |
| CommitSafety.RecoveryFollowsMigration | packages/server-distributed/src/postgres-store.ts:328-371 | a migration changes what recovery returns by exactly the schema function |
| CommitSafety.RecoveryFollowsHistory | packages/server-distributed/src/postgres-store.ts:187-225 | no other step changes what recovery returns |
| CommitSafety.WarmRoomsAreTrue | packages/server-distributed/src/worker.ts:389-399 | a warm room, fenced or not, holds the canonical state of its own version |
| CommitSafety.EventsAfterTellTheTruth | packages/server-distributed/src/postgres-store.ts:404-415 | whatever it starts from, events are those of the log under their own versions |
| CommitSafety.EventsAfterAreTheLog | packages/server-distributed/src/postgres-store.ts:404-415 | while rows are retained, exactly the next events of the log, up to the limit |
| CommitSafety.WarmHistoryIsExact | packages/server-distributed/src/worker.ts:270-276 | the history shown to `prepare` is called complete exactly when it is all operations since the base version |
| CommitSafety.AttemptIsTheSteps | packages/server-distributed/src/worker.ts:269-300 | the steps of the state machine are what `process` does |
| CommitSafety.ReloadKeepsSchemas | packages/server-distributed/src/worker.ts:305-312 | a reload keeps every schema label right if and only if the room's label is the head's |
| CommitSafety.PointerMislabelled | packages/server-distributed/src/postgres-store.ts:373-393 | the pointer's own row comes to be mislabelled exactly by a save that finds a row under another label in its place |
| CommitSafety.SchemasStayRight | packages/server-distributed/src/postgres-store.ts:373-393 | in runs without such reloads the pointer's row always carries the head's schema version |
| SchemaLabels.StaleReloadMislabels | packages/server-distributed/src/worker.ts:305-312 | a run after which the pointer's row carries the label of a finished era |
| CommitAnswers.AnswersAreReceipts | packages/server-distributed/src/postgres-store.ts:271-281 | an answer is the retained receipt, and a receipt changes only by being deleted |
| CommitAnswers.ExactlyOnce | packages/server-distributed/src/worker.ts:260-303 | two answers to one operation agree as long as its receipt was retained in between |
| CommitAnswers.AcceptedAnswerIsLogged | packages/server-distributed/src/postgres-store.ts:286-325 | an accepted answer names the log entry that holds its operation, patches and fingerprint for ever |
| CommitAnswers.NeverCommittedTwice | packages/server-distributed/src/postgres-store.ts:50-61 | an operation with a receipt, under any fingerprint, or with a retained WAL row is not committed again |
| CommitAnswers.SecondCommitNeedsCompaction | packages/server-distributed/src/postgres-store.ts:50-61 | an operation occupies two log entries only if the first one's row was compacted away |
| CommitAnswers.NoEventIsLost | packages/server-distributed/src/worker.ts:328-339 | every committed event stays in the outbox, unaltered, until a dispatcher reports it delivered |
| EndToEnd.SnapshotsAreHonest | packages/server-distributed/src/worker.ts:401-406 | a warm room's snapshot tells the truth about the log |
| EndToEnd.EventsAreHonest | packages/server-distributed/src/postgres-store.ts:404-415 | events read for a gateway tell the truth about the log |
| EndToEnd.PublishedEventsAreHonest | packages/server-distributed/src/worker.ts:328-339 | events published from the outbox tell the truth about the log |
| EndToEnd.AnswersAreHonest | packages/server-distributed/src/worker.ts:260-326 | answers, once given, tell the truth about the log for ever |
| EndToEnd.SentIsHonest | packages/server-distributed/src/gateway.ts:227-351 | whatever any connection of a gateway fed from the workers' run is sent tells the truth about its last log |
| EndToEnd.ClientShowsRecoveredState | packages/client-core/src/index.ts:355-360 | over every run of workers, gateway and client in one era: a client with an empty queue at the head version shows exactly what a worker activating now would recover |
| Pipeline.HistoryCompleteIsExact | packages/server-core/src/index.ts:197-201 | `historyComplete` holds if and only if `concurrentOperations` are exactly the operations committed in (baseVersion, currentVersion] |
| Pipeline.StrategyNeedsHistory | packages/server-core/src/index.ts:204-224 | under the default policy the strategy has no influence when the history is incomplete or too long |
| Pipeline.PreparedIsSound | packages/server-core/src/index.ts:183-249 | a prepared operation was resolved at the current version against its exact history, and its next state satisfies every invariant |
| Client.CollaborationClient.Enqueue | packages/client-core/src/index.ts:207-232 | refuses over the limits; otherwise queues with the current version as base, reprojects and flushes |
| Client.CollaborationClient.HandleSnapshot | packages/client-core/src/index.ts:272-296 | replaces the canonical state, settles what the snapshot covers in queue order, resends the rest |
| Client.CollaborationClient.HandleCanonical | packages/client-core/src/index.ts:298-307 | a gap asks for recovery, an old event is dropped, the next one is applied |
| Client.CollaborationClient.HandleResult | packages/client-core/src/index.ts:309-348 | settles, defers or keeps the first entry with this operation id |
| Client.CollaborationClient.HandleReady | packages/client-core/src/index.ts:255-263 | goes online only at the announced version |
| Client.CollaborationClient.FlushPending | packages/client-core/src/index.ts:362-369 | sends exactly the unsent operations, in queue order, when online |
| Client.CollaborationClient.ReprojectPending | packages/client-core/src/index.ts:355-360 | folds the pending patches over the canonical state in queue order |
| Client.CollaborationClient.RetryTimer | packages/client-core/src/index.ts:318-328 | an entry still queued becomes unsent; one settled meanwhile is left alone |
| Client.CollaborationClient.HandleClose | packages/client-core/src/index.ts:151-157 | every entry becomes unsent again |
| Client.CollaborationClient.RestorePending | packages/client-core/src/index.ts:383-406 | puts stored entries of this room in front, none twice |
| ClientSafety.EveryRunIsGood | packages/client-core/src/index.ts:253-360 | for any sequence of honest messages: canonical is the log's state at `canonicalVersion`, the projection is the pending patches on top, every submission is queued or settled exactly once, and acceptance at w is reported only at a version of at least w |
| ClientSafety.AccountedIsDistinct | packages/client-core/src/index.ts:272-348 | no submission is both pending and settled, or settled twice |
| ClientSafety.SettledForever | packages/client-core/src/index.ts:207-232 | settlements are final, and an operation's id and base version never change |
| ClientSafety.Converged | packages/client-core/src/index.ts:355-360 | with an empty queue at the head of the log the client shows exactly the server's state |
| Gateway.GatewayConnection.DeliverEvent | packages/server-distributed/src/gateway.ts:307-319 | queues while synchronising, drops what was sent, starts one catch-up on a gap, sends the next version |
| Gateway.GatewayConnection.SendPage | packages/server-distributed/src/gateway.ts:321-336 | sends the events of a page that continue the stream; reports a gap |
| Gateway.GatewayConnection.SendMessage | packages/server-distributed/src/gateway.ts:369-377 | a slow socket is closed instead |
| Gateway.GatewayConnection.Finish | packages/server-distributed/src/gateway.ts:238-241 | delivers what was queued in version order, then announces the last version |
| Gateway.RoomHub.OnRoomEvent | packages/server-distributed/src/gateway.ts:295-305 | passes on exactly the next version; behind it, asks for a catch-up |
| Gateway.RoomHub.CatchupPage | packages/server-distributed/src/gateway.ts:338-351 | passes on the events beyond the cursor to every connection |
| Gateway.BeyondIncreases | packages/server-distributed/src/gateway.ts:338-351 | a catch-up passes on each version once, in increasing order |
| GatewayStream.StepOK | packages/server-distributed/src/gateway.ts:227-351 | every handler step, in any interleaving at the awaits, keeps every stream right |
| GatewayStream.StreamsAreContiguous | packages/server-distributed/src/gateway.ts:227-242 | each event sent on a connection is one version above the last snapshot or event sent there, and carries that version's patches |
| GatewayStream.ClientKeepsUp | packages/client-core/src/index.ts:298-307 | a client that reads one such stream never finds a gap in it |
| Standalone.AuthoritativeDocumentSession.LoadFrom | packages/server-core/src/index.ts:313-351 | replays the log over the snapshot onto whatever earlier loads left; migrates and saves under a newer schema; fails on mixed schemas without a snapshot, a failing migration or a failing save |
| StandaloneRecovery.RetryIs | packages/server-core/src/index.ts:306-349 | initialising again after a failed load, whatever the storage holds by then: fails where a new object fails, otherwise gives its version, state, saved snapshot and the log's answers, and its history if and only if the failed load left none or a migration clears it |
| StandaloneRecovery.RetryIsLikeFresh | packages/server-core/src/index.ts:306-311 | on the same snapshot and log a retry that succeeds leaves exactly the session of a new object |
| StandaloneRecovery.SnapshotBeforeRetry | packages/server-core/src/index.ts:327-329 | a snapshot that arrives before the retry can leave a history that lists one operation twice |
| Standalone.AuthoritativeDocumentSession.Process | packages/server-core/src/index.ts:381-436 | a known operation is answered as before; otherwise prepared, appended and indexed, or rejected |
| Standalone.AuthoritativeDocumentSession.PersistSnapshot | packages/server-core/src/index.ts:438-448 | saves the session's own version and state |
| StandaloneRecovery.LoadIsExact | packages/server-core/src/index.ts:313-351 | in whatever order the storage returns the log, version, state and accepted answers are rebuilt exactly |
| StandaloneRecovery.ProcessKeeps | packages/server-core/src/index.ts:381-436 | processing keeps session and storage in agreement, with failing appends and saves |
| StandaloneRecovery.EvictionIsInvisible | packages/server-core/src/index.ts:629-637 | at any point of any run of one live session a rebuilt one has its version, state and accepted answers |
| StandaloneRecovery.TwoSessionsForkTheLog | packages/server-core/src/index.ts:404-419 | two live sessions append the same version, and an accepted operation is lost |
| StandaloneRecovery.LoadUnderNewer | packages/server-core/src/index.ts:313-349 | what activation under a newer schema returns, saves or fails on, with and without a snapshot |
| StandaloneRecovery.MigrationOpensEra | packages/server-core/src/index.ts:337-349 | it opens a new era with the migrated true state if and only if the log replays alike from where the newer pack starts it |
| StandaloneRecovery.SnapshotMigratesAlike | packages/server-core/src/index.ts:314-316 | a snapshot, or an initial state that the newer pack did not change, is enough |
| StandaloneRecovery.OldPatchesOnNewInitial | packages/server-core/src/index.ts:315-338 | a log without a snapshot on which the rebuilt state is 110 and the migrated one 20 |
| StandaloneHistory.ReloadedHistoryIsSuffix | packages/server-core/src/index.ts:327-329 | the reloaded history is a contiguous suffix if and only if, from the first operation under the pack's schema on, all are under it |
| StandaloneHistory.ReloadedHistoryIsExact | packages/server-core/src/index.ts:197-201 | under the same condition and no other, `historyComplete` tells the truth for every operation after a reload |
| StandaloneHistory.ReturningSchemaHidesVersion | packages/server-core/src/index.ts:327-329 | a stored room whose reloaded history is called complete and misses a version |
| StandaloneHistory.HistoryStaysExact | packages/server-core/src/index.ts:381-436 | along every run, for the live session and for one rebuilt at any point, `historyComplete` tells the truth for every operation, if no schema has returned when the era begins |
| StandaloneHistory.ReturnedSchemaStays | packages/server-core/src/index.ts:327-329 | if one has, every session rebuilt later in the era misleads some operation |
| StandaloneRecovery.LateOldSave | packages/server-core/src/index.ts:313-349 | a true snapshot of the old schema that arrives after the migration and any later commits: the next load is right if and only if migrating the old state with the later patches on top gives what the later patches give on the migrated state |
| StandaloneRecovery.LateOldSaveBeforeCommits | packages/server-core/src/index.ts:337-349 | so it is harmless while nothing has been committed under the new schema |
| StandaloneRecovery.CommutingPatchesMigrateLate | packages/server-core/src/index.ts:322-338 | and after commits whose patches commute with the schema function |
| StandaloneRecovery.LateOldSaveAfterCommit | packages/server-core/src/index.ts:313-351 | an input on which it is not: the rebuilt state is 20 and the true one 11 |
| RoomCache.Room.AskForSession | packages/server-core/src/index.ts:530-553 | looks the room up once, then waits for an eviction, joins the entry, sweeps a full cache, or creates an entry |
| RoomCache.Room.ReturnFromSweep | packages/server-core/src/index.ts:539-552 | inserts a new entry without a second lookup, which keeps the accounts right if and only if no lease is held on the entry it replaces |
| RoomCache.Room.TakeLease | packages/server-core/src/index.ts:567-585 | leases the session only if it is still the one in the map |
| RoomCache.Room.Release | packages/server-core/src/index.ts:577-583 | takes effect once |
| RoomCache.Room.FinishEviction | packages/server-core/src/index.ts:629-637 | removes only an idle room, on which no lease is outstanding |
| RoomCache.LeasesProtect | packages/server-core/src/index.ts:567-585 | over a run, leased sessions are always the ones in the map if and only if no caller comes back from its sweep onto a leased entry; then each entry also counts exactly its outstanding leases |
| RoomCache.ApartCallsProtect | packages/server-core/src/index.ts:538-553 | it is enough that nobody asks for the room while another caller is making space for it |
| RoomCache.SecondSweepReplacesLeased | packages/server-core/src/index.ts:538-583 | a run in which the second of two such callers replaces the leased entry, and its release is ignored |
| RoomEvictions.PlanRoomEvictions | packages/server-core/src/index.ts:109-132 | selects a prefix of the idle-first order, of exactly the length the policy asks for |
| RoomEvictions.PlanIsSafe | packages/server-core/src/index.ts:109-132 | never a room in use, never one twice, every idle one, and within the bound where possible |
| JsonPointer.UnescapeEscape | packages/domain-json/src/index.ts:114 | parsing an escaped segment gives back the key |
| JsonPointer.EscapeUnescape | packages/domain-json/src/index.ts:114 | printing undoes parsing on exactly the tokens of the RFC 6901 grammar |
| JsonPointer.SegmentsPrint | packages/domain-json/src/index.ts:112-118 | a printed pointer is read back as itself, and refused exactly when out of bounds |
| JsonPatch.WriteCopying | packages/domain-json/src/index.ts:130-147 | the copying walk writes at the pointer and keeps every other location |
| JsonPatch.ApplyAllAppend | packages/domain-json/src/index.ts:173-175 | patches applied in two batches give what one batch gives |
| ModelDiff.DiffJsonObjects | packages/model/src/index.ts:97-115 | the differ's loops push exactly the printed edits of the specification |
| ModelDiff.DiffCorrect | packages/model/src/index.ts:97-115 | the edits turn the first state into the second |
| ModelDiff.DiffThenApply | packages/model/src/index.ts:97-115 | so do the printed patches, unless a pointer leaves the bounds, and then applying fails |
| ModelDiff.RoundTrip | packages/domain-json/src/index.ts:112-175 | on bounded states diff then apply is the identity if and only if no key that objects inherit was dropped |
| ModelDiff.DroppedToString | packages/model/src/index.ts:106-115 | an input on which the differ throws: dropping a key named `toString` |
| ModelDiff.CommandPatchesRebuild | packages/model/src/index.ts:31-45 | the patches of a command rebuild the state that its reducer computed |
| StableString.StableTextInjective | packages/server-distributed/src/identity.ts:4-9 | two values have the same text if and only if they are the same tree, whatever the key order |
| StableString.QuoteCancel | packages/server-distributed/src/identity.ts:5 | a quoted string ends where it ends: the quoter is self-delimiting |
| BlockDiff.DeletePhase | examples/blocknote-app/src/collab/blocknote-change-adapter.ts:19-23 | leaves exactly the blocks that stay, in the old order |
| BlockDiff.InsertPhase | examples/blocknote-app/src/collab/blocknote-change-adapter.ts:25-31 | both orders after the insertions: the splicer's by index, the server's by predecessor |
| BlockDiff.MovePhase | examples/blocknote-app/src/collab/blocknote-change-adapter.ts:33-41 | brings the server's document into the final order |
| BlockDiff.UpdatePhase | examples/blocknote-app/src/collab/blocknote-change-adapter.ts:43-47 | brings every block to its final content |
| BlockDiff.HeadsAgree | examples/blocknote-app/src/collab/blocknote-change-adapter.ts:33-41 | whenever the splicer needs no move the server needs none either, although their orders differ |
| BlockDiff.DiffBlockNoteDocuments | examples/blocknote-app/src/collab/blocknote-change-adapter.ts:13-49 | replaying the commands on the list gives the next document; a server showing the previous one comes to show the next one, and rejects none, if and only if each new id has at most 512 characters and each new or changed block makes a payload within the bounds |
| BlockDiff.LongIdIsRejected | packages/domain-json/src/index.ts:126-127 | a block under an id of 513 characters and one behind it: the list takes both, the server rejects both |
| BlockSequence.ServerStep | examples/blocknote-app/server/block-domain-pack.ts:21-62 | one server step by ranks refines the list command; it is rejected exactly where the list rejects it, its payload is out of bounds, or no patch can address its id |
| BlockSequence.ServerReplays | examples/blocknote-app/server/block-domain-pack.ts:21-62 | so does a whole batch |
| BlockSequence.RunsStayAddressable | examples/blocknote-app/server/block-domain-pack.ts:66-79 | any run of commands, rejected ones included, keeps the pack's invariants and ids that patches can address |
| BlockSequence.StaysOut | packages/server-core/src/index.ts:384-388 | a block that only rejected commands carry never gets into the state |
| BlockSequence.InitialIsAddressable | examples/blocknote-app/src/domain/block-document.ts:28-59 | the initial document is where such runs begin |
| BlockPatches.PatchesCommute | examples/blocknote-app/server/block-domain-pack.ts:36-62 | the pack's patch, put through the shared applier, gives exactly the server step's records, and throws exactly on an id of more than 512 characters |
| PayloadLimits.AssertJsonComplexity | packages/protocol/src/index.ts:151-169 | the stack walk accepts exactly the values within the bounds on depth, nodes and collection length |
| ListOrder.MoveLands | packages/domain-json/src/index.ts:58-86 | a move that strategy and applier accept puts the item right behind `afterId` or, without one, first; all others keep order and keys, keys stay distinct and positive |
| ListOrder.MovesAreExact | packages/domain-json/src/index.ts:58-63 | from multiples of 1024 up to 1024 M, any k moves with (M + k) 2^k <= 2^53 round nothing in binary64 |
| SchemaMigration.ValidateMigrationGraph | packages/strategy-sdk/src/index.ts:113-121 | accepts exactly graphs with named versions, no self-loop and one outgoing migration a version |
| SchemaMigration.MigrateDomainState | packages/strategy-sdk/src/index.ts:85-111 | terminates; succeeds exactly when the chain reaches the target and no function fails, returning chain and composition |
| SchemaMigration.ChainUnique | packages/strategy-sdk/src/index.ts:92 | there is at most one chain |
| SchemaMigration.ChainNoRepeat | packages/strategy-sdk/src/index.ts:93-108 | a chain leaves no version twice |
| SchemaMigration.MigrationSplits | packages/strategy-sdk/src/index.ts:97-110 | migrating through an intermediate version gives the state of migrating in one go |
| RateLimiter.TokenBucketLimiter.Allow | packages/server-distributed/src/gateway.ts:421-434 | refills by elapsed time up to the burst and takes a token if there is one |
| RateLimiter.TokenBucketLimiter.Prune | packages/server-distributed/src/gateway.ts:436-448 | drops stale buckets, then those seen longest ago, down to 10,000 |
| RateLimiter.RefillIsRate | packages/server-distributed/src/gateway.ts:428 | refilling by the millisecond adds up to rate times elapsed time |
| RateLimiter.InsertedSurvives | packages/server-distributed/src/gateway.ts:436-448 | under a monotone clock the bucket just inserted is not the one pruned |
| RateLimiter.SizeBound | packages/server-distributed/src/gateway.ts:437-447 | at most 10,000 buckets remain after a call |
| RateLimiter.WindowBound | packages/server-distributed/src/gateway.ts:421-434 | in any window of any run a key whose bucket stays gets at most burst plus the refill of the window |
| EntityPatches.MergeCommutes | packages/domain-json/src/index.ts:158-163 | merging into the first entity with an id is changing every entity with it, when ids are unique |
| EntityPatches.DeletesApply | packages/domain-json/src/index.ts:155-157 | deleting one id after the other |
| EntityPatches.RevisionFollowsVersion | examples/todo-list-app/server/draft-domain-pack.ts:60-72 | whatever a strategy patches, the revision follows the canonical version |
| GraphDomain.CompilerCommutes | examples/react-flow-app/src/collab/graph-canonical-patches.ts:9-32 | applying the strategy's patches is applying the command, if and only if its new id is one a patch can address |
| GraphDomain.ResolveIs | examples/react-flow-app/server/graph-domain-pack.ts:16-26 | the strategy rejects exactly what the domain rejects |
| GraphDomain.CommandKeepsInvariant | examples/react-flow-app/server/graph-domain-pack.ts:33-46 | an accepted command never breaks unique ids or edge endpoints |
| GraphDomain.RunsStayConsistent | examples/react-flow-app/server/graph-domain-pack.ts:10-48 | along every run the state is the domain's graph, the revision is the version, and references are valid |
| GraphDomain.InitialIsValid | examples/react-flow-app/src/domain/graph-document.ts:38-50 | the initial graph is consistent at version 0 |
| DraftDomain.SectionCommandsCommute | examples/todo-list-app/src/collab/draft-linked-patches.ts:14-44 | the same for section commands and their linked completion patches |
| DraftDomain.SubmitReviewCommutes | examples/todo-list-app/server/draft-domain-pack.ts:38-43 | the same for submitting a review |
| DraftDomain.ResolveIs | examples/todo-list-app/server/draft-domain-pack.ts:17-51 | the strategies reject exactly what the domain rejects |
| DraftDomain.CommandKeepsInvariants | examples/todo-list-app/src/domain/draft.ts:72-107 | commands keep ids unique and the completion equal to what the sections say |
| DraftDomain.EditKeepsCompletion | examples/todo-list-app/src/domain/draft.ts:82-85 | editing text leaves the completion right although it is not recomputed |
| DraftRuns.RenameCommutes | examples/todo-list-app/src/collab/draft-command-adapter.ts:15-18 | a rename through the property strategy is the domain's rename |
| DraftRuns.MoveRefusals | examples/todo-list-app/src/domain/draft.ts:90-98 | the list-order strategy refuses exactly the moves that the domain refuses |
| DraftRuns.MoveCommutes | packages/domain-json/src/index.ts:58-86 | a move through the list-order strategy is the domain's move if and only if the next section has a key beyond the one before |
| DraftRuns.RunsStayConsistent | examples/todo-list-app/server/draft-domain-pack.ts:60-106 | along every run of all the application's commands the state is a draft, revision is the version, ids are unique and the completion matches |
| DraftRuns.ChecksMeanValid | examples/todo-list-app/server/draft-domain-pack.ts:85-106 | the pack's three checks accept an encoded draft exactly when it is valid |
| DraftRuns.ChecksNeverReject | examples/todo-list-app/server/draft-domain-pack.ts:85-106 | they never stand in the way of such a run |
| DraftRuns.AnyRunStaysConsistent | examples/todo-list-app/server/draft-domain-pack.ts:60-72 | along every run of whatever patches any strategy accepts, the revision is the version; that the three checks hold is the pipeline's doing |
| DraftKeys.RunsAreTheDomain | examples/todo-list-app/server/draft-domain-pack.ts:60-106 | along every run of the application's commands the state is what the domain's own functions give, moves included: order keys stay positive and apart, so there is always room ahead |
| DraftKeys.InitialApart | examples/todo-list-app/src/domain/draft.ts:46-55 | the initial draft is where such runs begin |
| DraftKeys.RestoredKeyLeavesNoRoom | packages/domain-json/src/index.ts:38-63 | after `entity.restore` has written the key "0" a move to the front gets another key than the domain gives |
| DraftRuns.InitialIsConsistent | examples/todo-list-app/src/domain/draft.ts:46-55 | the initial draft is consistent at version 0 |

## Left out

- Express, WebSocket, HTTP, pg and Redis wiring, timers, metrics, health endpoints, environment parsing, token and origin checks: input and output only.
- Redis leases, worker discovery and routing: any worker may claim at any time.
- One document per model. `loadRoom` is three queries in the source and one atomic step here; the compaction's advisory lock and its counts of deleted rows are not modelled.
- `applyCanonicalPatches`, reducers and migrations are total deterministic functions where they are parameters. Of `collabhub_schema_history` only the key is modelled; snapshot checksums are never read and left out.
- The `duplicate` flag of a repeated acceptance, reject messages, corrective patches and `retryAfterMs` are not carried.
- CommitAnswers.ExactlyOnce: speaks of the answers that receipts back; a collision, a retry and a resynchronisation are not answers in this sense.
- Object keys: an object is a map, so key order is not part of a value; JavaScript sorts keys by UTF-16 unit and `Below` by character. Likewise the bounds of 256, 512 and 4096 count characters here and UTF-16 units in the source. `JSON.stringify` equality, which depends on key order, is a sound oracle for each path.
- Numbers are exact reals. Order keys and coordinates are finite; StableString takes a printing of the numbers the engine holds that is injective and uses digits, sign, point and exponent only. SHA-256 and the escaping of lone surrogates are not modelled.
- BlockDiff.DiffBlockNoteDocuments: ranks are exact numbers, so the loss of precision after many insertions at one place is not modelled; blocks are compared as values. The transport's bounds on bytes and queue length and the pipeline's resynchronisations come before the pack and are not counted here, and nobody else edits meanwhile.
- ListOrder.MovesAreExact: says nothing past its bound, where binary64 may round.
- DraftDomain.SectionCommandsCommute: the percentage is rounded from exact arithmetic.
- DraftRuns.MoveCommutes: order keys are finite numerals, so the branch of `rankBetween` for other text is not modelled, and printing is taken to tell the two keys compared apart.
- DraftKeys.RunsAreTheDomain: order keys are exact numbers that `Number` reads back as `String` wrote them; the runs are of commands that the pipeline hands to the strategies.
- PayloadLimits.AssertJsonComplexity: values are JSON already, so the branch for other types is not modelled. Outside the block editor the envelope's checks are not composed with the packs.
- JsonPatch.WriteCopying: the walk copies objects in place; here each copy is a new value, so sharing between old and new state is not modelled.
- Property, entity and transaction strategies of `domain-json` other than `list.move`: their patches are covered by the applier, their decisions are one-line checks.
- Client: the order of the queue after a restart is modelled as the source has it (each stored entry in front of the last); durable storage itself, authentication, presence, listeners and exceptions inside `applyPatches` are not.
- ClientSafety.EveryRunIsGood: within one schema era of the server's log.
- EndToEnd.ClientShowsRecoveredState: within one schema era, and with no order in time between the workers' steps and the gateway's.
- Gateway: liveness. The fetch loops do not advance past skipped events, and a second client's synchronisation may raise the hub's cursor; only the safety of what is sent is claimed. One connection stays in one room.
- RoomCache.LeasesProtect: one room, the others deciding only whether the cache is full; before `close()`; callers waiting on one failed initialisation are rejected in one step. `roomDataRetention: 'delete'` is not modelled.
- StandaloneRecovery.EvictionIsInvisible: one live session at a time, which leases give under the condition of RoomCache.LeasesProtect; rejections are remembered in memory only, so the index compared is that of accepted operations; an append that fails has stored nothing.
- Model's stale policies, the landing page, React components, command-line tools and deployment files.
