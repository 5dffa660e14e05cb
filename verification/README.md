# Verification of the message history server

A Dafny model of the storage engine of the chat history server and of the protocols around it, with
proofs. `dafny verify dfyconfig.toml` checks the whole project.

## What is modelled

- **Durable ingest** as a crash-prone state machine (`Machine`, `MachineInvariant`, `MachineSteps`,
  `MachineTheorems`): journal, open tail, sealed batches in flight and block tables, with volatile and
  durable parts. A database transaction is one step, a crash may come between any two steps, and other
  writers of the block database act in between. Every returned error counts as a crash, as the ingest
  loop ends on every error (`src/storage/ingest_runtime.rs:227-360`). The object that runs it is
  `DurableIngestion.DurableIngest`; it logs each step, so the theorems about runs hold of it.
- **The block store** (`Tables`, `Appending`, `Batches`, `Journal`, `Accounting`, `Scanning`,
  `IndexedScan`, `Sqlite`, `SqliteStore`, `BlockStore`): tables as values, specified by deduplication
  against everything a channel holds, and a class whose methods loop over rows as the code does and are
  proved to do what is specified. `TableLaws` and `BlockOrder` say what the specification means row by
  row and record by record. `MemoryStore` is the simple store it must agree with; `Refinement`
  relates the two.
- **The open tail** (`OpenBlocks`) and **answers** (`Queries`, `Merge`, `Serving`, `GatedAnswers`).
- **Owner-to-replica policy replication** (`Policy`, `Cluster`, `Replication`) over a network that loses,
  delays, duplicates and reorders, and the **readiness flag** of a node with three databases
  (`Readiness`, `BlockedFlag`, `PolicyGate`).
- **The segment store** (`Segment`, `SegmentStore`): an append-only file of which a crash keeps only what
  was synced and not truncated since.
- **Pressure eviction and budget** (`Eviction`, `Budget`), **coverage** (`Coverage`), **placement**
  (`Placement`), **message tags** (`Tags`, `Text`), **response cache** (`ResponseCache`).
- **Caveats** (`Caveats`, `StalePlans`, `Scenarios`): places where two sound steps do not add up, with
  exact conditions and runs from an empty database that get there.

## Assumptions

- Two records with the same event key have the same event time (`stamp`), which identity validation
  demands (`src/storage/raw_irc.rs:71-88`). Merging truncated answers also assumes that copies agree on
  the time of receipt; `Serving.DisagreeingCopiesBreakMerging` shows why.
- Journal checksums of different payloads differ (`Collisionless`). Hashes are parameters (`digest`,
  `Hash`), block codecs are parameters (`pack`, a `Codec` that reads back what it wrote).
- A commit that reports an error did not become durable; `Segment.FailedCommitMustBeVoid` says what
  depends on it in the segment store.
- Sizes and counts are natural numbers. Journal sequences, offsets, purge times and coverage bounds are
  64-bit where a property depends on it.

## What the code does not meet

- `accept_journal_batch` fails once a pending row or the batch starts at the largest 64-bit sequence and
  touching rows lead up to it; a batch that merely ends there is accepted
  (`Journal.RefusedExactly`, `Journal.TopBatchIsRefused`, `Journal.LastSequenceIsAccepted`).
- A snapshot with a negative purge time, which the owner accepts in a purge mutation of a channel it has
  no row of, is refused by every replica (`Cluster.NewerIsTaken`, `Cluster.NegativePurgeIsRefused`,
  `Cluster.FirstPurgeIsRefused`).
- A ready node can serve a channel its tables ignore, or block one they do not, when the tables held two
  policies with one purge time and different flags and a request applies the older one late
  (`BlockedFlag.ReadyFlag`, `BlockedFlag.FlagIsRightExactly`, `BlockedFlag.ReadyCanDisagree`).
- The clamp on `after` drops the bound altogether when the purge time is past what chrono can hold
  (`Serving.ClampHidesPurged`, `Serving.FarPurgeHidesNothing`).
- An answer can miss an accepted record: one whose batch is still under way or waits for replay, one
  that is sealed and not yet written, and one that is sealed between the reads of blocks and open tail
  (`GatedAnswers.AnsweredExactly` says exactly when; `Scenarios.MissedRecord` is a run that shows a batch
  under way, a sealed one and a torn read).
- Applying a purge also drops what was received after its cutoff and is already stored or waiting
  (`MachineTheorems.PurgeDropsExactly`, `Scenarios.PurgeDropsLaterRecord`).
- The viewer loses a tag named `__proto__` (`Tags.RoundTrip`).
- Copies of one event on both sides of a purge can take each other down (`Caveats.CopiesAcrossAPurge`),
  and an eviction plan can take a block stored since it was made (`StalePlans.StalePlan`,
  `Scenarios.StalePlanTakesNewBlock`).

## Model

| member | source | states |
|---|---|---|
| `MachineTheorems.NothingOwedIsLost` | src/storage/ingest.rs:64-219 | In every state of every run with crashes between any two transactions, each record of an accepted batch that no named removal took is in a pending journal row or covered by a block of its channel at no lower fidelity |
| `MachineTheorems.AcceptedIsDurable` | src/storage/ingest_runtime.rs:227-360 | An acknowledged record is, at every later point of the run and across any crashes, in a pending row or covered by a block, unless a step since then removed its event by name |
| `MachineTheorems.OwedExactly` | src/storage/ingest_runtime.rs:227-360 | Between any two points of a run, a record is owed at the second exactly when it was owed at the first or came in between and no step from then on names its event as lost |
| `MachineTheorems.OnlyRemovalsLose` | src/storage/ingest.rs:64-219 | Booting, accepting, replaying, sealing, retiring the journal and crashing name nothing as lost |
| `MachineTheorems.PurgeDropsExactly` | src/web/cluster_policy.rs:45-60 | With any steps between the purge of the blocks and the clearing of the tail, a record of the channel is owed afterwards exactly when it did not wait at the second and either was owed and not stored at the first or came in between, nothing naming it as lost meanwhile; its time of receipt plays no part |
| `MachineTheorems.PurgeStepDrops` | src/storage/sqlite.rs:614-642 | A purge of the blocks stops exactly the stored events of the channel from being owed, whatever the cutoff |
| `MachineTheorems.ClearStepDrops` | src/web/cluster_policy.rs:54-58 | Clearing the tail stops exactly the waiting events of the channel from being owed |
| `Scenarios.PurgeDropsLaterRecord` | src/web/cluster_policy.rs:45-60 | A run from an empty database on which a record received after the cutoff is dropped by applying a purge and leaves no trace once the journal is retired |
| `MachineTheorems.AppendLossIsNamed` | src/storage/sqlite.rs:733-756 | Everything an append can lose was refused by a blocked channel, turned away by the purge cutoff, or dropped by retention while the target stays held |
| `MachineTheorems.ExactlyOnceSinceLoss` | src/storage/ingest.rs:117-197 | Once the journal is empty each event of which a copy came since it was last removed by name is stored exactly once, by a copy that arrived, at no lower fidelity than any copy that came since |
| `MachineTheorems.ExactlyOnce` | src/storage/ingest.rs:117-197 | In particular an event never removed is stored exactly once at the highest fidelity that ever arrived for it |
| `MachineTheorems.OrderDoesNotMatter` | src/storage/sqlite.rs:335-369 | Two runs in which the same copies of an event arrived and no named removal took that event end, with empty journals, with it at the same fidelity, in whatever order they accepted and replayed and whatever else was removed |
| `MachineTheorems.RunRises` | src/storage/sqlite.rs:614-642 | Along every run no purge cutoff and no acknowledged offset ever falls |
| `MachineTheorems.PurgedStaysGone` | src/storage/sqlite.rs:614-705 | After a purge step nothing received up to its cutoff is stored again in any later state of the run, and a channel that holds something is not blocked |
| `MachineTheorems.AcknowledgedIsContiguous` | src/storage/sqlite.rs:199-290 | In every reachable state each sequence between the base of a stream and its acknowledged offset was in an accepted batch, and no pending row starts right after the offset |
| `MachineTheorems.RunInv` | src/storage/ingest.rs:64-219 | Every reachable state satisfies the whole invariant: sound block tables, sane journal, tracked rows, nothing invented, nothing owed lost |
| `MachineSteps.StepInv` | src/storage/sqlite_async.rs:131-228 | The invariant is kept by each of the 17 kinds of step, those of the ingest process and those of the other writers of the block database |
| `MachineSteps.AcceptInv` | src/storage/ingest.rs:64-115 | Accepting a batch keeps the invariant: its records become owed and its rows tracked |
| `MachineSteps.FlushInv` | src/storage/ingest.rs:170-197 | Writing any prefix of the sealed batches in one transaction keeps the invariant, so a crash between checkpoint chunks loses nothing |
| `MachineSteps.RetireInv` | src/storage/sqlite.rs:315-333 | Retiring a stream through what was materialised, with nothing left in memory, keeps everything owed durable in blocks |
| `MachineSteps.BootInv` | src/storage/ingest.rs:117-143 | A restarted process that loads the pending rows satisfies the invariant |
| `MachineInvariant.RemovalInv` | src/storage/sqlite.rs:507-705 | Purge, block, evict and expiry steps keep the invariant and discharge exactly the events of the blocks they delete |
| `Journal.ChaseContiguous` | src/storage/sqlite.rs:263-281 | The committed offset only moves over pending rows that touch each other: every sequence passed is covered by a row, and no row starts at the offset plus one |
| `Journal.ChaseFailsAtTheTop` | src/storage/sqlite.rs:263-281 | The non-advancing error happens exactly when the walk over the rows below i64::MAX ends at i64::MAX or just before it with a row starting at i64::MAX; it is unreachable below |
| `Journal.RefusedExactly` | src/storage/sqlite.rs:189-290 | A batch that contradicts no pending row is refused as non-advancing exactly when it or a pending row starts at i64::MAX and, from the offset, touching rows lead up to i64::MAX or the sequence before it; below i64::MAX only contradictions are refused |
| `Journal.TopBatchIsRefused` | src/storage/sqlite.rs:199-281 | A concrete input for it: a fresh stream cannot accept the single sequence i64::MAX |
| `Journal.LastSequenceIsAccepted` | src/storage/sqlite.rs:199-281 | A batch that only ends on i64::MAX is accepted by a fresh stream and acknowledges i64::MAX |
| `Journal.AcceptKeeps` | src/storage/sqlite.rs:189-290 | Accepting keeps the journal tables sane, keeps every earlier row, adds the batch or finds it already there, and never lowers the offset |
| `Journal.RetireKeeps` | src/storage/sqlite.rs:315-333 | Retiring rows keeps the journal invariant |
| `Journal.ReplayOrderIsTotal` | src/storage/sqlite.rs:335-369 | Replay order by source, stream and first sequence is a total preorder in byte order |
| `Journal.ReplayRises` | src/storage/sqlite.rs:335-369 | Replay goes source by source, stream by stream and, within a stream, with strictly rising first sequences |
| `Records.ChampionWins` | src/storage/mod.rs:91-96 | After any copies came by, a retained record is itself or a copy of the same event with strictly higher fidelity, and no copy seen beats it |
| `Records.ReplacesExactly` | src/storage/mod.rs:91-96 | An unknown copy gives way to any known one, a reconstructed one to one seen on the wire, and nothing else does |
| `Records.FreshFacts` | src/storage/sqlite.rs:810-828 | The new records of a batch are one per unknown event and drawn from the batch |
| `Records.FreshCovers` | src/storage/sqlite.rs:810-828 | Each unknown event of a batch ends at no lower fidelity than any of its copies in the batch |
| `Ordering.SortIsStable` | src/storage/sqlite.rs:809 | The sort used everywhere keeps records with equal keys in the order they came |
| `Ordering.SortedUnique` | src/web/peer.rs:429-450 | Two sorted arrangements of the same elements under a key without ties are the same sequence |
| `Ordering.TextLeMeans` | src/storage/sqlite.rs:340-346 | Byte order: one text is the beginning of the other, or has the lower character at the first difference |
| `Appending.AppendKeeps` | src/storage/sqlite.rs:727-911 | An append keeps every invariant of the block tables: well-formed blocks, rising sequences below the next one, one copy per event, retention, nothing purged or blocked stored |
| `Appending.AppendCovers` | src/storage/sqlite.rs:727-911 | Each stored or arriving copy is stored afterwards at no lower fidelity, or its event is named as lost |
| `Appending.AppendInventsNothing` | src/storage/sqlite.rs:727-911 | A channel holds afterwards only what it held before or what the batch brought to it |
| `Appending.FilledList` | src/storage/sqlite.rs:757-886 | Before retention a channel holds its old records upgraded in place followed by the new events, and other channels are untouched |
| `Batches.RetentionFloor` | src/storage/sqlite.rs:888-903 | Retention drops whole oldest blocks only, leaves at most target plus one block less one message, and never goes below the target |
| `BlockOrder.NewEventsInOrder` | src/storage/sqlite.rs:809-903 | New events are stored oldest first: of two, the one with a copy before every copy of the other by event time, then receipt, then key stands before it, so retention never drops the later and leaves the earlier |
| `Batches.AppendAllCovers` | src/storage/sqlite.rs:389-414 | The batches of one transaction together lose only what their appends name |
| `Batches.AppendAllKeeps` | src/storage/sqlite.rs:389-414 | A transaction of many batches keeps the block-table invariant |
| `Batches.RoomLosesNothing` | src/storage/sqlite.rs:888-903 | With room for a batch in an open channel without cutoff, an append loses nothing at all |
| `Invariants.PurgeKeeps` | src/storage/sqlite.rs:614-642 | A purge keeps the block-table invariant, whatever cutoff was there |
| `Invariants.SetBlockedKeeps` | src/storage/sqlite.rs:644-681 | Blocking or unblocking keeps the block-table invariant; a blocked channel holds nothing |
| `Invariants.SyncBlockedKeeps` | src/storage/sqlite.rs:683-705 | Replacing the blocked list keeps the block-table invariant |
| `Invariants.EvictKeeps` | src/storage/sqlite.rs:507-546 | Deleting blocks by id keeps the block-table invariant |
| `Invariants.DropIdleKeeps` | src/storage/sqlite.rs:548-612 | Deleting idle channel rows keeps the invariant: sequences stay unique when a row is recreated because no block was left |
| `Invariants.TouchKeeps` | src/storage/sqlite.rs:442-463 | Recording a request keeps the block-table invariant |
| `TableLaws.PurgeByRows` | src/storage/sqlite.rs:614-642 | A purge keeps exactly the blocks and rows of other channels, raises the cutoff to the later of the two and touches no other cutoff, flag, journal row or offset |
| `TableLaws.BlockByRows` | src/storage/sqlite.rs:644-681 | Blocking keeps exactly the blocks and rows of other channels, unblocking keeps all; nothing else changes |
| `TableLaws.SyncByRows` | src/storage/sqlite.rs:683-705 | The listed channels are the blocked ones afterwards, without blocks and rows; the others keep theirs |
| `TableLaws.EvictByRows` | src/storage/sqlite.rs:507-546 | Eviction takes exactly the blocks with the ids and nothing else |
| `TableLaws.ExpireByRows` | src/storage/sqlite.rs:548-612 | Expiry keeps exactly the blocks with an event at or past the cutoff, and the rows of channels that still have a block or were asked for at or after it |
| `TableLaws.TouchByRows` | src/storage/sqlite.rs:442-463 | A request is recorded in a new row or in one whose last request is older than the given time; nothing else changes, so a sequence never starts over |
| `TableLaws.RetireByRows` | src/storage/sqlite.rs:315-333 | Retiring takes exactly the rows of the stream that end by the sequence and touches nothing else |
| `TableLaws.AcceptTouchesOnly` | src/storage/sqlite.rs:189-290 | An accepted batch changes nothing but the journal and the offset of its own stream |
| `TableLaws.ChunksFollow` | src/storage/sqlite.rs:864-886 | Chunking adds blocks behind those there are, which hold the records in order |
| `TableLaws.ChunksAreFull` | src/storage/sqlite.rs:864-886 | Every added block but the last is full, none is empty or overfull, and their sequences follow one another |
| `Accounting.InsertExact` | src/storage/sqlite.rs:1068-1078 | The insert trigger keeps the totals equal to the sums over all blocks |
| `Accounting.UpdateExact` | src/storage/sqlite.rs:1079-1088 | The update trigger keeps the totals exact when a block is rewritten |
| `Accounting.DeleteTally` | src/storage/sqlite.rs:1089-1099 | Delete triggers fired one row after another subtract exactly the deleted blocks: no clamp at zero ever fires |
| `Accounting.DeleteExact` | src/storage/sqlite.rs:1089-1099 | After a delete the totals are the sums over what is left |
| `Accounting.NothingToDrop` | src/storage/sqlite.rs:115-131 | A cascade over rows without blocks deletes no block and changes no total |
| `Accounting.TallyByRows` | src/storage/sqlite.rs:1068-1078 | What the totals sum, row by row: blocks, their messages, the bytes of their payloads and the bytes these unpack to |
| `IndexedScan.OverlapFindsCopies` | src/storage/sqlite.rs:777-798 | A block holding a copy of an incoming event overlaps the batch in event time, because the event key determines the event time |
| `IndexedScan.ScanKnowsEnough` | src/storage/sqlite.rs:774-828 | Deduplicating against the overlapping blocks only finds the same new events as deduplicating against all the channel holds |
| `IndexedScan.PatchUpgrades` | src/storage/sqlite.rs:829-851 | Writing back the dirty loaded blocks equals upgrading every block of the channel |
| `Scanning.Scan` | src/storage/sqlite.rs:774-807 | The loop over the rows loads each block once and indexes every record it holds |
| `Scanning.Deduplicate` | src/storage/sqlite.rs:809-828 | The loop leaves each loaded block absorbed by the batch, dirty if it changed, and the new records as one best copy per unknown event |
| `Sqlite.OldestIsFirst` | src/storage/sqlite.rs:890-899 | The row of least sequence is the first block of the channel |
| `Sqlite.WriteUpgrades` | src/storage/sqlite.rs:829-851 | The update loop rewrites exactly the dirty blocks and keeps totals exact |
| `Sqlite.InsertChunks` | src/storage/sqlite.rs:864-886 | The chunk loop appends the specified blocks, keeps totals exact and counts what it added |
| `Sqlite.EnforceRetention` | src/storage/sqlite.rs:888-903 | The retention loop deletes exactly the blocks the specification drops and ends with the exact message count |
| `SqliteStore.AppendTransaction` | src/storage/sqlite.rs:727-911 | The transaction, scanning only overlapping blocks, makes of the tables what full deduplication specifies, and every derived column stays exact; of two new events of the batch the one with a copy before every copy of the other, by event time, receipt and key, stands first and does not outlive the other |
| `SqliteStore.LoadAndDeduplicate` | src/storage/sqlite.rs:763-828 | Loading and deduplicating yields the specified new records and the specified upgrades |
| `SqliteStore.FillAndRetain` | src/storage/sqlite.rs:857-909 | Insertion, retention and the counter update together meet the specification |
| `BlockStore.AdvanceOffset` | src/storage/sqlite.rs:263-281 | The loop that follows touching rows terminates and returns the specified offset or error |
| `BlockStore.SqliteBlockStore.AcceptJournalBatch` | src/storage/sqlite.rs:189-290 | Accepts, finds again or refuses a batch exactly as specified; on an error nothing changed |
| `BlockStore.SqliteBlockStore.RetireJournalThrough` | src/storage/sqlite.rs:315-333 | Deletes exactly the rows of the stream that end by the sequence |
| `BlockStore.SqliteBlockStore.PendingJournalBatches` | src/storage/sqlite.rs:335-369 | All pending rows in replay order |
| `BlockStore.SqliteBlockStore.AppendChannelBatches` | src/storage/sqlite.rs:389-414 | All batches in one transaction or, if one mixes channels, none |
| `BlockStore.SqliteBlockStore.AppendBatch` | src/storage/sqlite.rs:938-958 | One batch of one channel in one transaction |
| `BlockStore.SqliteBlockStore.EvictBlockIds` | src/storage/sqlite.rs:507-546 | Deletes exactly the blocks with the ids, keeps all counters exact and counts what went |
| `BlockStore.SqliteBlockStore.ExpireBlocksBefore` | src/storage/sqlite.rs:548-612 | Over all its transactions deletes exactly the blocks older than the cutoff, then idle rows; the counts are exact and the cascade takes no block |
| `BlockStore.SqliteBlockStore.ExpireTransaction` | src/storage/sqlite.rs:548-612 | One bounded batch of expiry takes the oldest expired blocks first |
| `BlockStore.SqliteBlockStore.PurgeChannel` | src/storage/sqlite.rs:614-642 | Raises the cutoff to the later of the two and deletes everything of the channel |
| `BlockStore.SqliteBlockStore.SetChannelBlocked` | src/storage/sqlite.rs:644-681 | Blocks and empties the channel, or lifts the block |
| `BlockStore.SqliteBlockStore.SyncBlockedChannels` | src/storage/sqlite.rs:683-705 | Makes the listed channels the blocked ones and empties them; a channel listed twice rolls everything back |
| `BlockStore.SqliteBlockStore.TouchChannelRequested` | src/storage/sqlite.rs:442-463 | Records a request unless one was recorded lately, and says whether it did |
| `BlockStore.SqliteBlockStore.Query` | src/storage/sqlite.rs:960-1005 | The newest records of the window in answer order, with the oldest and newest receipt times held |
| `BlockStore.SqliteBlockStore.Stats` | src/storage/sqlite.rs:1007-1041 | What the trigger-kept totals report are the true counts and sums |
| `MemoryStore.MemoryBlockStore.AppendBatch` | src/storage/memory.rs:49-85 | Keeps first copies of unseen events in chunks, pops whole oldest blocks, and keeps seen-set and count true |
| `MemoryStore.MemoryBlockStore.Query` | src/storage/memory.rs:87-120 | Answers from all records held |
| `Refinement.SameEvents` | src/storage/memory.rs:49-120 | After any single-channel batches, whatever the fidelities, the indexed store and the reference store hold the same events in the same blocks in the same order |
| `Refinement.SameAnswers` | src/storage/memory.rs:49-120 | With one fidelity throughout they hold the same records and answer every query alike |
| `Refinement.RunsAlike` | src/storage/sqlite.rs:774-903 | The stores stay related block by block under any relation that upgrades preserve |
| `OpenBlocks.OpenBlockManager.Append` | src/storage/open_blocks.rs:162-217 | Refused exactly when the last append of the channel lies ahead of the clock. An upgrade changes one record in place and no time; a new event is added with the last append now, a full block is sealed, then least recently active channels until both limits hold; every other block stays as it is, and each event is in the tail or in what was sealed |
| `OpenBlocks.OpenBlockManager.EnforceBounds` | src/storage/open_blocks.rs:251-273 | Seals coldest channels first, stops as soon as both limits hold, and returns exactly their records |
| `OpenBlocks.ColderSealedFirst` | src/storage/open_blocks.rs:251-273 | Over a whole pass: whatever was still there when a block was sealed had its last append no earlier, and ties go by opening, then by name |
| `OpenBlocks.LateStays` | src/storage/open_blocks.rs:251-273 | A pass never reaches the blocks whose last append lies ahead of the clock as long as these alone fit the limits |
| `OpenBlocks.OpenBlockManager.SealDue` | src/storage/open_blocks.rs:219-233 | Seals exactly the blocks without an append for the idle limit or open for the age limit and leaves the others as they are |
| `OpenBlocks.OpenBlockManager.SealAll` | src/storage/open_blocks.rs:235-241 | Seals everything, as many records as waited, and leaves the tail empty |
| `OpenBlocks.OpenBlockManager.TakeBlock` | src/storage/open_blocks.rs:275-281 | Takes one channel out and keeps byte and message counts exact |
| `OpenBlocks.OpenBlockManager.PurgeChannel` | src/storage/open_blocks.rs:124-135 | Drops the waiting records of one channel only |
| `OpenBlocks.OpenBlockManager.Query` | src/storage/open_blocks.rs:89-114 | The newest waiting records of the window |
| `OpenBlocks.OpenBlockManager.Coldest` | src/storage/open_blocks.rs:251-273 | A channel whose last append is the earliest of all, ties by opening and then by name |
| `OpenBlocks.SumsWithout` | src/storage/open_blocks.rs:275-281 | Removing a channel lowers the totals by its own bytes and messages |
| `OpenBlocks.FiledDistinct` | src/storage/open_blocks.rs:162-200 | If the index finds every record at its place, no event waits twice |
| `DurableIngestion.DurableIngest.AcceptBatch` | src/storage/ingest.rs:64-90 | Fails with the error of the journal and an unchanged database, or once the batch is journaled exactly when a record comes to a channel whose last append lies ahead of the clock and whose block no earlier record sealed (if the late blocks alone fit the limits: exactly when a record is for a late channel); otherwise answers the offset. Every step is one of the state machine, and only accepting, pushes, writes and the progress note |
| `DurableIngestion.DurableIngest.AcceptSourceBatch` | src/storage/ingest.rs:92-115 | Refused without a trace unless it holds one record per sequence, else exactly the outcome of AcceptBatch |
| `DurableIngestion.DurableIngest.Materialize` | src/storage/ingest.rs:199-219 | Pushes each record into the open tail, writes what fills up in one transaction and notes the progress; it fails exactly at the first record of a channel whose last append lies ahead of the clock and whose block no earlier push sealed, and then has written nothing |
| `DurableIngestion.DurableIngest.RecoverPending` | src/storage/ingest.rs:117-143 | Always succeeds: every pending row is replayed into the empty tail, the answer is their number and the journal stays as it is |
| `DurableIngestion.DurableIngest.SealDue` | src/storage/ingest.rs:145-152 | Exactly the blocks without an append for the idle limit or open for the age limit leave the tail and are written, the others stay as they are, and the answer counts the records written |
| `DurableIngestion.DurableIngest.Checkpoint` | src/storage/ingest.rs:170-197 | Seals everything, writes it in chunks of at most 1024 batches, retires the journal: afterwards journal and tail are empty, and the answer counts what waited |
| `DurableIngestion.DurableIngest.ReplayRow` | src/storage/ingest.rs:125-141 | Fails with a checksum error exactly when the checksum does not match, and otherwise only if some block was late; from a tail without late blocks it succeeds and leaves none |
| `Merge.MergeIsNewest` | src/web/peer.rs:429-450 | A merge holds, sorted, one best copy of exactly those events that have fewer than `limit` newer ones in the inputs |
| `Merge.NewestSuffices` | src/web/peer.rs:166-188 | A truncated answer may stand for everything its store holds: an event left out has `limit` newer ones in the answer |
| `Merge.NewestOfEnough` | src/web/peer.rs:166-188 | The newest of answers that may stand for their stores are the newest of the stores |
| `Merge.MergeOfEnough` | src/web/peer.rs:166-188 | Merging two truncated answers equals asking for the newest of everything behind them |
| `Merge.FoldedSuffices` | src/web/peer.rs:166-188 | Folding any number of peer answers with truncation at each step gives the newest of everything the peers hold |
| `Merge.NewestIsUnique` | src/web/peer.rs:429-450 | Keys, order and fidelities of such an answer are determined by the set of records behind it |
| `Merge.ArrivalOrderDoesNotMatter` | src/web/peer.rs:166-188 | Answers arriving in another order give the same events in the same order at the same fidelities |
| `Serving.DisagreeingCopiesBreakMerging` | src/web/peer.rs:429-450 | The agreement of copies on times is needed: a better copy received earlier makes two arrival orders end with different events |
| `Serving.MergeRecords` | src/web/peer.rs:429-450 | The hash-table loop computes the merge whatever order the table gives its values in |
| `Serving.FetchLocal` | src/web/peer.rs:143-194 | Folds the answers that arrived, skips failures, fails only if all failed, and accumulates coverage of the same milliseconds |
| `Serving.TogetherLikeOne` | src/web/get_recent_messages.rs:139-170 | Sealed and open records queried apart and merged are the newest of their union in the window |
| `Serving.QueryLocalMessages` | src/web/get_recent_messages.rs:139-170 | Over the two store objects, the newest of both together, by receipt bounds: nothing outside the bounds of the request is answered, and each held or waiting event inside them is, or the answer holds as many newer ones as the smaller of limit and buffer |
| `Serving.HeldTimesBound` | src/storage/sqlite.rs:960-1005 | The receipt times reported with an answer are the least and the greatest of all that is held, in the window or not |
| `Serving.ClampHidesPurged` | src/web/get_recent_messages.rs:206-225 | The clamped window excludes everything purged exactly when the purge time is within the range of chrono or the caller asked for a later one |
| `Serving.FarPurgeHidesNothing` | src/web/get_recent_messages.rs:211-219 | The failing input: a purge time one millisecond past the last time of chrono leaves everything received before the request in the window of a request without bounds |
| `GatedAnswers.GatedAnswerHidesPurged` | src/web/get_recent_messages.rs:139-225 | Along every run, an answer of a request past the gate, reading blocks and open tail at two later moments, holds nothing its policy purged, unless the clamp cannot express the purge time, and then only from the tail |
| `GatedAnswers.WaitsExactly` | src/web/get_recent_messages.rs:159-169 | Over every run, an event waits in the open tail at the second of two moments exactly when it waited at the first or was pushed since, and from then on no step sealed or purged the tail of its channel or crashed |
| `GatedAnswers.AnsweredExactly` | src/web/get_recent_messages.rs:139-170 | Reading the blocks at one moment of a run and the tail at a later one, a record in the window is answered exactly when it was in the blocks at the first moment or waits at the second as above, and fewer than the limit read with it are newer |
| `GatedAnswers.OwedIsAnswered` | src/web/get_recent_messages.rs:139-170 | In particular an owed record is read, at no lower fidelity, if everything accepted was in blocks or tail at the first moment and the tail of its channel was left alone since |
| `GatedAnswers.SealedBetweenIsMissed` | src/web/get_recent_messages.rs:159-169 | From any settled state, sealing between the two reads hides a record from the answer although it is stored by then or named as lost |
| `Scenarios.MissedRecord` | src/web/get_recent_messages.rs:159-169 | A run from an empty database on which an accepted record is missed while its batch is under way, while it is sealed and not yet written, and by reading the blocks before and the tail after it was written |
| `Serving.QueryClamped` | src/web/get_recent_messages.rs:206-225 | With both clamps: each held or waiting event received after the purge and the bound after, before the bound before and not after the request is answered, or the answer is full of newer ones; nothing else is answered |
| `Coverage.MergeIntervals` | src/coverage.rs:74-101 | Merged intervals are in order, more than one millisecond apart, cover the same milliseconds, and keep every source of every interval they contain |
| `Coverage.CanonicalIsUnique` | src/coverage.rs:74-101 | There is one merged form of a set of milliseconds, so the order of merging cannot matter |
| `Coverage.UncoveredIntervals` | src/coverage.rs:103-130 | No gap is reported exactly when the range is empty or every millisecond is covered; gaps are ordered, uncovered inside, and contain every uncovered millisecond |
| `Coverage.AssessCoverage` | src/coverage.rs:28-69 | Sufficient exactly when nothing is asked for or every millisecond from the required start to the required end is covered |
| `Coverage.RequiredByTimes` | src/coverage.rs:28-72 | Which milliseconds are required: up to now and the bound before, from the bound after and the retained time on, and with a full answer in hand from the oldest of its last records on |
| `Coverage.EvidenceOnlyHelps` | src/coverage.rs:28-69 | More intervals, or older records in front, never make a sufficient answer insufficient |
| `Coverage.JoinedNames` | src/coverage.rs:85-92 | Joining a source adds exactly its names to the comma-separated list |
| `Policy.ReceiveRises` | src/cluster.rs:380-480 | Whatever arrives, a replica never lowers a purge time or its revision and never changes its epoch |
| `Policy.MutationRises` | src/cluster.rs:271-295 | A mutation forgets no channel, lowers no purge time, keeps the epoch and moves on by one revision if it writes |
| `Policy.PurgesDoNotFall` | src/cluster.rs:667-684 | Ignoring purges up to now and purging up to the cutoff, a later purge time stands, other channels are untouched |
| `Policy.OptOutKeepsPin` | src/cluster.rs:667-684 | Opting out and purging keep the pin, a purge keeps the opt-out, the purge time is the later of the two, and no other channel and no session changes |
| `Policy.PinsStayWithin` | src/cluster.rs:697-734 | Enabling a pin is refused exactly when the channel is not pinned and the maximum is reached; the maximum is never passed |
| `Policy.PinOnlyPins` | src/cluster.rs:697-734 | Pinning keeps the other fields of the channel, every other channel and the sessions |
| `Policy.UnpinUnpins` | src/cluster.rs:697-734 | Afterwards the channel is not pinned; its other fields, every other channel and the sessions stay, and no row is added |
| `Policy.ReplacePinsExactly` | src/cluster.rs:736-751 | Afterwards exactly the listed channels are pinned, in lower case; no other field and no session changes |
| `Policy.BootstrapPinsOnce` | src/cluster.rs:753-773 | A list adds its pins to those there are the first time only, and an empty one does nothing at all |
| `Policy.SaveAuthFiles` | src/cluster.rs:775-804 | Fails exactly for a row that is none and for inserting a token that is there; otherwise the row is filed under its token, except that an update of a token nobody has changes nothing; other sessions and all channels stay |
| `Policy.RevokeForgets` | src/cluster.rs:835-842 | The revoked token has no session afterwards, every other session stays, channels are untouched |
| `Policy.LowerIsAscii` | src/cluster.rs:667-684 | Channel names are compared in ASCII lower case: the 26 capitals move by 32, every other character stays |
| `Policy.TableHolds` | src/cluster.rs:446-453 | Inserting rows with distinct names gives a table with exactly these rows |
| `Cluster.WriteRecorded` | src/cluster.rs:271-295 | A write extends the recorded history of the owner; snapshots and replicas of earlier revisions stay genuine |
| `Cluster.ReceiveIsPast` | src/cluster.rs:380-480 | A replica that takes or refuses a genuine snapshot holds a past state of the owner |
| `Cluster.NewerIsTaken` | src/cluster.rs:410-443 | A genuine newer snapshot is installed exactly when its logins are valid and none of its purge times is negative |
| `Cluster.NegativePurgeIsRefused` | src/cluster.rs:680-690 | After a purge below zero of a channel the owner has no row of, every snapshot of that revision is refused by every replica |
| `Cluster.FirstPurgeIsRefused` | src/cluster.rs:410-431 | A concrete input for it: the first mutation of a new owner purges a valid login up to -1; with 0 the snapshot would be installed |
| `Cluster.ClusterControl.Receive` | src/cluster.rs:380-480 | Installs, finds stale or refuses a snapshot exactly as specified; a refusal leaves the tables alone |
| `Cluster.ClusterControl.TakeSnapshot` | src/cluster.rs:367-379 | All rows of both tables with epoch and revision |
| `Cluster.ClusterControl.MutateLocal` | src/cluster.rs:667-843 | Each mutation makes of the owner tables what is specified, in one transaction that raises the revision |
| `Cluster.ClusterControl.Push` | src/cluster.rs:521-541 | Success means every replica acknowledged: it is at the owner revision with the owner tables and ready |
| `Cluster.ClusterControl.Mutate` | src/cluster.rs:546-589 | A mutation reported successful is applied at the owner and held by every replica; a failed one may have been written and leaves every replica at a past state |
| `Cluster.ClusterControl.AcceptSnapshot` | src/web/cluster_policy.rs:134-150 | Given the outcome of applying, acknowledges exactly when the snapshot was not refused and was applied, and then the node is ready; `PolicyGate.AcceptSnapshot` carries the applies out |
| `Cluster.Acceptables` | src/cluster.rs:410-443 | The checks over the rows pass exactly when each row is acceptable and no purged channel is missing |
| `Replication.ReplicaIsPastOwner` | src/cluster.rs:380-480 | With snapshots lost, delayed, duplicated and reordered, a replica at revision r holds the tables the owner had at revision r |
| `Replication.ReplicasOnlyAdvance` | src/cluster.rs:380-480 | Along every run revisions and purge times of every replica only rise |
| `Replication.NewerSnapshotIsInstalled` | src/cluster.rs:410-443 | A newer snapshot that arrives is installed whatever was lost before it, exactly when logins are valid and purge times not negative; otherwise nothing changes |
| `Replication.OrderOfDeliveryDoesNotMatter` | src/cluster.rs:394-409 | Two snapshots delivered in either order leave the replica with the newer one |
| `Replication.RunInv` | src/cluster.rs:271-480 | Every reachable state of owner, network and replicas is consistent with the recorded history |
| `Readiness.ReadyMeansApplied` | src/web/cluster_policy.rs:112-150 | In every reachable state, with crashes between the three databases, a node marked ready has for each channel a block-store cutoff at least its purge time and stores nothing purged |
| `Readiness.GateHidesPurged` | src/web/cluster_policy.rs:76-110 | A request that passed the gate finds in the blocks, then and later, nothing its policy purged, however old the policy it read; `GatedAnswers.GatedAnswerHidesPurged` covers the open tail |
| `Readiness.JobIsNeverRefused` | src/web/cluster_policy.rs:112-150 | Synchronisation never meets an applied policy newer than its own, so it cannot be refused |
| `Readiness.NextInv` | src/web/cluster_policy.rs:19-74 | The readiness invariant is kept by receiving, reading, every transaction of an apply, failures, marking ready, ingest steps and crashes |
| `Readiness.WholeApplies` | src/web/cluster_policy.rs:19-74 | An apply that is not refused purges; it leaves the blocked flag as the policy says exactly when it had anything to do or the flag was right before |
| `Readiness.WholeKeepsRecords` | src/web/cluster_policy.rs:19-74 | An apply of a policy that ignores nothing and purges nothing later than was applied leaves blocks, rows and cutoffs as they are |
| `BlockedFlag.ReadyFlag` | src/web/cluster_policy.rs:19-74 | Over every run without other writers of blocked flags: on a ready node the policy whose flag was written last has the purge time of the tables, and the channel is blocked as the tables say exactly when it also has their ignore flag |
| `BlockedFlag.FlagIsRightIfTimesDiffer` | src/web/cluster_policy.rs:37-74 | As long as the tables never hold two policies of a channel with one purge time and different ignore flags, a ready node blocks exactly what its tables ignore |
| `BlockedFlag.FlagIsRightExactly` | src/web/cluster_policy.rs:37-110 | For any set of policies that the tables may hold of a channel, every ready node is right about blocking it exactly when no two of them have one purge time and different flags |
| `Readiness.SamePurgeTime` | src/cluster.rs:667-678 | Changing the opt-out keeps the purge time exactly when the clock is not past it |
| `BlockedFlag.ReadyCanDisagree` | src/cluster.rs:667-678 | An owner that changes the opt-out twice at one reading of its clock takes two snapshots, and a run of a replica that receives them, without crash or error, ends ready with the wrong flag, in either direction |
| `PolicyGate.AppliedPolicies.Apply` | src/web/cluster_policy.rs:19-74 | Over the store objects: refused exactly for an earlier purge time, otherwise tables, tail and recorded policies become what is specified |
| `PolicyGate.AppliedPolicies.BringStores` | src/web/cluster_policy.rs:45-63 | Blocks or unblocks, and if asked purges blocks and open tail |
| `PolicyGate.AppliedPolicies.Synchronize` | src/web/cluster_policy.rs:112-132 | The loop over all policies succeeds exactly when none is older than what was recorded, and then every purge time has reached the block store |
| `PolicyGate.AcceptSnapshot` | src/web/cluster_policy.rs:134-151 | With the applies carried out: a replica acknowledges exactly what it does not refuse to receive, and ready then means that the block store has every purge |
| `Segment.OpenNeverFails` | src/storage/segment.rs:81-96 | Whatever crashed at any write, sync, truncation or commit, opening never finds the file shorter than its index |
| `Segment.CommittedReadsBack` | src/storage/segment.rs:337-353 | At every moment of every run each committed block reads back the records written, and live extents do not overlap |
| `Segment.CommittedStaysReadable` | src/storage/segment.rs:112-228 | A committed block reads back from the same place at every later moment before another commit, through crashes, truncation and reopening |
| `Segment.FailedCommitMustBeVoid` | src/storage/segment.rs:142-146 | If a commit reported as failed became durable, the repaired file opens exactly when no row needs a byte past the start of the transaction |
| `Segment.NextInv` | src/storage/segment.rs:112-228 | The file and index invariant is kept by every operation and by crashes that keep only synced bytes |
| `SegmentStore.SegmentBlockStore.constructor` | src/storage/segment.rs:27-105 | Opening cuts off what no row names; afterwards the file ends where the index ends |
| `SegmentStore.SegmentBlockStore.AppendChannelBatches` | src/storage/segment.rs:112-148 | On success every channel is as the reference store would have it; on an error index and file content are as before; every operation is a step of the crash machine |
| `SegmentStore.SegmentBlockStore.AppendTransaction` | src/storage/segment.rs:150-228 | One channel batch: the unseen records in chunks, sequences and counter exact, oldest rows over the allowance gone |
| `SegmentStore.SegmentBlockStore.ReadBlock` | src/storage/segment.rs:337-353 | Reading a block named by the index never fails and gives its records |
| `SegmentStore.SegmentBlockStore.Query` | src/storage/segment.rs:243-286 | Answers like the other stores from all records of the channel |
| `SegmentStore.AppendedIsPushed` | src/storage/segment.rs:150-228 | A batch makes of a channel just what it makes of it in the reference store |
| `SegmentStore.PushedFromNothing` | src/storage/memory.rs:49-85 | From an empty store that is the reference store itself |
| `Eviction.PlanReachesTarget` | src/storage/eviction.rs:74-177 | A plan reaches the target, takes only unguarded blocks, and without its last block would not reach it |
| `Eviction.CrossedExactly` | src/storage/eviction.rs:155-176 | A plan reports a crossed floor exactly when a requested channel that lost a block ends below its floor |
| `Eviction.EmergencyFailsExactly` | src/storage/eviction.rs:155-168 | In an emergency planning fails exactly when evicting every unguarded block would not reach the target |
| `Eviction.HighWaterFailsWhenNothingFits` | src/storage/eviction.rs:133-168 | At high water it fails exactly when the greedy choice misses the target, and then every unguarded block left would breach a floor |
| `Eviction.VictimsGoInOrder` | src/storage/eviction.rs:95-153 | An unguarded block that comes before a chosen one in the order of the candidates is chosen too or would breach a floor |
| `Eviction.WhoGoesFirst` | src/storage/eviction.rs:95-153 | In terms of the rows: never-requested blocks go before those last asked for before the time in the policy, these before those asked for since, all before those always joined; alike in that, by last request, last event and id. A block that goes before a chosen one is chosen too or would leave less than its floor |
| `Eviction.FloorByRows` | src/storage/eviction.rs:112-141 | The floor is that of the policy for a channel with a block always joined or asked for since the time in the policy, and nothing for others |
| `Eviction.ModeBySize` | src/storage/eviction.rs:74-95 | Below high water nothing is planned; from there on a plan is one for high water, from the emergency threshold on one for an emergency |
| `Eviction.ThresholdsAreShares` | src/storage/eviction.rs:28-43 | The thresholds are the whole bytes of target, high-water and emergency shares of the budget |
| `Eviction.SelectsCandidates` | src/storage/eviction.rs:95-153 | No block is taken twice and no guarded one at all |
| `Eviction.ThresholdsRise` | src/storage/eviction.rs:28-43 | Valid ratios give target, high water and emergency in this order within the budget |
| `Eviction.PlanPressureEviction` | src/storage/eviction.rs:74-177 | The loops with their running counters compute the specified plan or error |
| `Eviction.ChooseVictims` | src/storage/eviction.rs:112-153 | The candidate loop makes the specified first choice |
| `Eviction.DistributionIsExact` | src/storage/budget.rs:167-183 | After distribution the blocks account for the larger of physical and attributed bytes |
| `Eviction.DistributePhysicalOverhead` | src/storage/budget.rs:167-183 | The loop over the array gives each block its equal share, the first ones one byte more |
| `Eviction.EmergencySucceedsAfterDistribution` | src/storage/budget.rs:167-183 | So an emergency over unguarded blocks always finds a plan |
| `Budget.EffectiveMaxIsStrictest` | src/storage/budget.rs:185-209 | A size is within the effective limit exactly when it fits the configured limit, the share of the filesystem and the space to keep free |
| `Budget.StorageBudgetEnforcer.Enforce` | src/storage/budget.rs:97-165 | Each pass plans over the store the pass before left; enforcement stops at the first pass that fails or has nothing to take, answers with its verdict, and after the last pass succeeds exactly below high water |
| `Budget.EnforcementOnlyEvicts` | src/storage/budget.rs:97-165 | Whatever is measured, enforcement only deletes blocks, at least one in every pass that takes something |
| `Budget.TakingShrinks` | src/storage/eviction.rs:74-189 | A plan that names blocks brings the measured size to its target and deletes at least one block of the store |
| `Budget.EmergencyPassNeverFails` | src/storage/sqlite.rs:465-505 | Rows offered for eviction are never protected, so an emergency pass over a store with blocks finds a plan |
| `Budget.RowsOffered` | src/storage/sqlite.rs:465-505 | A row offered for eviction has the payload bytes of its block and 384 more, the times of its channel cut at zero, and is never protected |
| `Budget.DecidesBySize` | src/storage/budget.rs:97-165 | A pass under a limit is content below its high water; what it takes is what a plan for that limit names, with channels asked for within the protected time as requested |
| `Budget.FailsWithoutLimit` | src/storage/budget.rs:97-165 | Where no limit can be had the pass fails for that reason |
| `Placement.NewAcceptsExactly` | src/storage/placement.rs:16-42 | Construction accepts exactly unique valid member names, a local member among them and one to all copies |
| `Placement.OwnersIgnoreOrder` | src/storage/placement.rs:45-64 | Members listed in another order on another node give the same owners |
| `Placement.OwnersIgnoreCase` | src/storage/placement.rs:45-46 | Case does not matter in the channel |
| `Placement.OwnersAreMembers` | src/storage/placement.rs:45-64 | There are exactly `copies` owners, distinct, all members |
| `Placement.OwnersOutrank` | src/storage/placement.rs:45-64 | Every owner outranks every member left out, and owners stand by falling rank: by the hash of member and lower-case channel, then by name |
| `Placement.ExactlyCopiesRetain` | src/storage/placement.rs:67-69 | Exactly `copies` nodes retain a channel |
| `Placement.NewMemberTakesOnePlace` | src/storage/placement.rs:45-64 | A new member changes nothing or takes one place and pushes out the last owner only, the others keeping their order |
| `Tags.DecodeOfEncode` | src/message_export.rs:137-150 | Decoding undoes encoding for every string |
| `Tags.EncodedIsClean` | src/message_export.rs:137-150 | An encoded value holds no semicolon, space or line break (IRCv3 Message Tags, section "Escaping values") |
| `Tags.EscapesAreStandard` | src/message_export.rs:137-150 | Semicolon, space, backslash, carriage return and line feed have the escapes of IRCv3 Message Tags, section "Escaping values"; every other character stands for itself |
| `Tags.RoundTrip` | web/src/viewer.tsx:67-79 | The viewer reads back every printed tag map whose keys avoid the separators, and the rest of the message, exactly if no key is `__proto__`; that one is lost |
| `Tags.NoTags` | web/src/viewer.tsx:67-79 | A message printed without tags is passed on unchanged exactly when it does not begin like tags |
| `Tags.EncodeTagValue` | src/message_export.rs:137-150 | The loop over the characters computes the encoding |
| `Tags.StableRawIrc` | src/message_export.rs:116-135 | Prints the tags in key order whatever order the map gives them in |
| `Tags.ParseTags` | web/src/viewer.tsx:67-79 | The loop over the printed tags computes the specified parse |
| `Text.SplitOfJoin` | web/src/viewer.tsx:73 | Splitting undoes joining when no part holds the separator |
| `ResponseCache.AdaptiveResponseCache.Insert` | src/web/response_cache.rs:148-171 | The key becomes the newest, the oldest insertions leave until both limits hold, the new entry survives, and list, table and byte count agree |
| `ResponseCache.AdaptiveResponseCache.Get` | src/web/response_cache.rs:136-147 | A hit is what was last stored under the key and not older than the maximal age; an older entry is removed |
| `ResponseCache.AdaptiveResponseCache.RemoveEntry` | src/web/response_cache.rs:271-276 | Removal keeps list, table and byte count together |
| `ResponseCache.AdaptiveResponseCache.PressureActive` | src/web/response_cache.rs:122-134 | Pressure lasts for the hold time after enough requests were last under way |
| `ResponseCache.TrimmedKeepsNewest` | src/web/response_cache.rs:158-169 | What survives is a run of latest insertions that fits, and one more would not have fitted |
| `Caveats.CopiesAcrossAPurge` | src/storage/sqlite.rs:751-756 | Of any copies of an event waiting in the open tail only the first of the best is sealed, so an event not stored yet survives exactly when that copy was received after the cutoff, retention apart |
| `Caveats.TwoCopiesAcrossAPurge` | src/storage/open_blocks.rs:162-200 | For one copy on each side of the cutoff: in one order the event survives exactly if the later copy is strictly better, in the other exactly if the earlier one is not |
| `StalePlans.StalePlan` | src/storage/budget.rs:132-146 | Along every run, an eviction planned at one point and carried out at a later one spares every block stored since exactly when for no planned id still in use the next id fell as low as it in between |
| `StalePlans.PlanIsSafeAbove` | src/storage/budget.rs:132-146 | While the next id stays above every planned id the plan takes no block stored since |
| `StalePlans.AppendGoesOn` | src/storage/sqlite.rs:864-903 | An append gives new blocks ids past all ids in use and, retention included, never lets the next id fall |
| `Scenarios.StalePlanTakesNewBlock` | src/storage/sqlite.rs:115-131 | A run from an empty database on which the id of a purged newest block is given to a new block, which the plan made before then takes |
| `Caveats.IdsAreReused` | src/storage/sqlite.rs:115-131 | Deleting the newest block frees its id exactly when the one before it has the preceding id |

## Left out

- HTTP routing, middleware, authentication flows, metrics, tracing, configuration loading, shutdown and the dashboard: plumbing.
- Parsing and canonicalisation of chat lines: records are taken as already canonical.
- BLAKE3, zstd and MessagePack: hashes and codecs are parameters; a block is its decoded records with its metadata.
- ClusterControl.AcceptSnapshot: takes the outcome of applying as an input, so that `Push` can be stated for any network and any failure; `PolicyGate.AcceptSnapshot` carries the applies out.
- QueryLocalMessages: reads both stores in one state; `GatedAnswers` states exactly what an answer holds when the blocks are read first and the tail later.
- GateHidesPurged: speaks of blocks only; `GatedAnswers.GatedAnswerHidesPurged` adds the open tail and the clamps.
- A synchronisation that fails at the start ends the process in the code; in `Readiness` the node may also run on, which only adds runs.
- Consensus mode of `ClusterControl`: it delegates to an external database that is not part of this model.
- Errors of a 32-bit size, of a lock or of the disk inside the block store: each is a rolled-back transaction, which the state machine has as a crash.
- WAL checkpoints, incremental vacuum and measured file sizes: physical sizes are inputs of `Budget`.
- Losing the last committed SQLite transactions in a power failure: a commit is durable when it returns.
- Columns that nothing reads back, such as `now_ms` of journal rows and `updated_at_ms`, and the always-join table of the block store, which is an input of `Budget`.
- Column affinity and NULL primary keys of session rows: a session row is nine cells that are neither NULL nor unusable, under a text token.
- The order of rows in a snapshot: any order is allowed, which receiving does not depend on.
- Revisions beyond 64 bits: taking a snapshot then fails, and what SQLite makes of the overflow is not modelled.
- A handler dropped by its client while a database call of its is still queued: handlers here run on, fail or crash between transactions.
- Coverage invalidation, join reconciliation and parting a channel when a policy is applied: they touch neither blocks nor tail.
- Repair fetching, its circuit breaker and the single-flight map: timers and network dominate.
- Batchers, join backoff and tunnel admission: they would only add easy members.
- Moderation filters and export of deleted messages: they would only add easy members.
- The JavaScript string type: characters here are code points, the escapes are all ASCII.
- Byte counts near the 64-bit bound in eviction and budget: sums are exact and subtraction stops at zero as in the code.
- Ratios are real numbers: rounding of binary floating point is not modelled, only the cut to whole bytes.
