# jadedb, modelled and proved

jadedb is an LSM-tree storage engine: writes go to a write-ahead log and a memtable, full memtables are
frozen and flushed to table files in level 0, and compaction merges tables into deeper levels. This project
models the engine in two layers and proves that they fit together.

**The engine as steps.** `engine.dfy` holds the state of `Inner` (memtable, frozen memtables, levels, table
files, log, manifest edits, counters) and the lock-protected sections of `src/db.rs` as functions on it. The
specification is a history of writes with increasing sequence numbers: a read returns the last write of its
key. The invariant (`Engine.Inv`) says that the sources a read walks are *faithful* to the history, in memory
and, up to the durable part of the log, on disk; that the version is sound (tables described truly, L0 by file
number, deeper levels disjoint); that the manifest lists the version; and that the log is the end of the
history. Recovery replays log records that may already be in tables, so sources share records. The source
order that survives this is `Sources.Shadows`: a version in an older source that is not older than some version
of its key in a newer source is in the newer one too. Every section keeps the invariant, and so does a loss of
power at any point followed by `open`. `runs.dfy` draws the conclusions for whole runs.

**The files as bytes.** Keys, blocks, index, bloom filter, footer, log frames, log records and manifest edits
are modelled byte for byte. A table file is a fast form of a sorted run: range check, bloom filter, index and
block cache answer exactly what a scan of the run would. `formats.dfy` says what every byte of every format
means without going through an encoder, and what damaged files do.

**The database object.** `db.dfy` and `db_open.dfy` put the two together: class `Db` keeps the bytes of its
files, a block cache, a log and a manifest object, and its methods do what the steps say. `Reopen` is the
crash theorem on bytes.

**Torn logs.** A crash in the middle of an append leaves part of a log record. `open` reads the log up to there
and then appends behind those bytes without cutting them off (src/wal.rs:35-45). The model keeps the torn bytes:
`Log.torn` says where they stand. Until something is appended behind them the log is `Whole` and any further crash
is harmless; `flush` starts the log afresh and removes them (`FlushRestarts`). Reopening while records stand behind
torn bytes, after a crash or an orderly `close`, can lose acknowledged, synced writes (`LostAfterRun`) or find the
log unreadable (`ReadBehindTorn`); `KeptLog` is the exact condition under which it does not. The results about whole
runs are for runs that crash or close only while the log is whole.

**Torn manifests.** `Manifest::log` writes its edits one by one and syncs once, so a loss of power can leave some of
them. After any cut inside the edits of a flush the database still reads all of its history. After a cut inside the
edits of a compaction it reads every key right but the stale ones: those whose newest version was in upper inputs that
are already deleted while an older lower input is still listed and found first (`TornCompactLog`; `OldValueBack` is a
run). At the inner cuts the file counter may be behind a listed file, so that its number is given out again; the
compaction that does so removes what it has just written (`ReusedNumberLoses`).

## Layout

| file | what |
|---|---|
| `bytes`, `key`, `records` | byte strings and integers, internal keys, stored writes and what reading a set of them means |
| `merge`, `iter`, `scan` | k-way merge, merging iterator, range scans |
| `memtable`, `bloom`, `block`, `builder`, `reader` | memtable, bloom filter, blocks and index, table files, table lookup and block cache |
| `framing`, `wal`, `manifest` | frames, write-ahead log, manifest |
| `formats` | every format byte by byte, said without the encoders; damaged files |
| `version`, `sources`, `history` | levels, the sources of a read, histories and faithfulness |
| `compact_faith`, `compact`, `pick`, `compact_run`, `relevel`, `compacted`, `level_faith`, `compact_step` | compaction: why it keeps reads, what it picks and writes, the loop, the rebuilt levels, termination |
| `options`, `engine`, `engine_inv`, `engine_flush`, `engine_compact`, `engine_recover` | the engine's steps and its invariant |
| `runs`, `macro_runs`, `stalls`, `handles` | whole runs, crash consistency, the stall bound and its end, stable handles, reads without compaction |
| `snapshots` | what a compaction does to snapshot reads |
| `log_crash` | a database that loses an acknowledged write behind a torn log record |
| `probe`, `cut_levels`, `cut_reads`, `manifest_crash`, `cut_runs` | a manifest cut inside a `log` call: reads level by level, the rebuilt levels, what they answer, the theorems, and runs that go wrong |
| `db_facts`, `db`, `db_open`, `room` | the database object over bytes, and when its size assumption holds |

Most proofs begin by hiding all definitions and take what they need from small lemmas that open one
definition each (`LiveIs`, `StepParts`, `SourcesIs` and so on); that keeps every proof obligation small.

## Assumptions

- Sequence numbers stay below 2^56 and lengths fit the fields the formats give them: `DbFacts.RoomFor` says so
  of the history and `FitsTable`, `FitsRecord`, `FitsEdit` of single objects. `Room.HistoryHasRoom` derives it from
  bounds on the writes; that logged edits fit follows from it (`DbFacts.EditsFit`). Without the bound on sequence
  numbers keys do not round-trip (`Keys.EncodeRoundTrip`) and can compare the other way (`Keys.EncodedOrderHolds`).
- `max_levels >= 2` and `l0_compaction_trigger >= 1` (`Options.Usable`). With one level the code indexes a level
  that is not there; with trigger 0 every write stalls.
- The results about whole runs take one `Manifest::log` call as atomic under a loss of power, and there are no I/O
  errors. `TornFlushLog` and `TornCompactLog` say what is read after a cut inside a call; `OldValueBack` and
  `ReusedNumberLoses` show that without the assumption reads do go wrong.
- CRC32 is an arbitrary function from bytes to 32-bit numbers, one for checksums and bloom hashes alike.
- A loss of power keeps every byte that was synced; of the unsynced log it keeps any prefix, cut anywhere. The next
  loss of power or `close` comes while nothing has been appended behind a torn record (`Runs.WholeAfter`).
- What a reopened log holds is on disk. That is so after a loss of power. When only the process died, `open_append`
  counts the records it had not synced as synced (`pending` starts at 0), so a loss of power after that can take
  up to 256 KiB more in `Batch` mode; a process that dies alone is not an event of the model.
- File sizes enter compaction picking as the length of the table's bytes.

## Where code and documentation differ

The repository's README says that space amplification is bounded by "tombstones retained until compaction past
watermark", its guide that snapshots delay the clean-up of old versions. The code keeps only the newest version
of every input key whatever the watermark (src/compact.rs:168-171); the watermark decides about tombstones
alone. The model follows the code. A snapshot read can therefore change when its keys are compacted
(`Snapshots.ReadLost` is such a run); `ReadKept` says exactly when it does not, `ReadAbove` that reads at or above
the newest input version never do, and `SnapshotReads` that without compactions no read position changes.

The guide lists `Always`, a sync after every append, as the mode of greatest durability (docs/LSM_GUIDE.md:190). A
write acknowledged in it can be lost all the same, once the log was reopened with a torn record at its end; see
"Torn logs" above. The model follows the code.

## Model

| member | source | states |
|---|---|---|
| `Runs.RunRefinesMap` | src/db.rs:142-206 | After every run of writes, syncs, freezes, flushes, log restarts, compactions and orderly restarts (close and open, in every fsync mode), from the database in an empty directory, reading any key gives what the map holds that results from the accepted writes applied in order; with `Always` the same holds when the run also loses power and reopens any number of times, tearing a log record or not; power is lost and the database closed only while nothing stands behind torn bytes (`Runs.WholeAfter`) |
| `Runs.CrashConsistent` | src/db.rs:50-108 | After every run, such restarts, crashes and recoveries included, reads give the map of the writes still in the history |
| `Runs.WholeAfter` | src/wal.rs:35-45 | Exactly when a crash or a restart may come in these runs: opening and starting the log afresh make the log whole; an accepted write ends it while torn bytes stand in the log, and nothing else does |
| `Runs.CrashTakesLittle` | src/wal.rs:64-82 | A crash cuts a suffix off the accepted writes: nothing in `Always` mode, less than 256 KiB of framed log bytes in `Batch` mode |
| `Runs.RunEnds` | src/wal.rs:64-69 | Without crashes, and with `Always` in every run, the history is exactly the accepted writes, in order |
| `Runs.EventInv` | src/db.rs:364-461 | Every atomic section, an orderly restart in every fsync mode, and a crash at any time the log is whole followed by recovery, keeps the whole invariant: faithful sources, sound version, agreeing manifest, log as suffix of the history, crash safety |
| `Runs.CrashInWrite` | src/db.rs:159-177 | Power lost anywhere inside a write, also inside its log record, leaves a disk that a crash just before or just after the write also leaves, if no torn bytes stood in the log before |
| `Runs.CrashInFlush` | src/db.rs:370-412 | Power lost anywhere inside a flush round (new file missing or in any state, edits logged, log removed, log recreated) leaves a crash image of the state before it or after it |
| `Runs.CrashInCompaction` | src/db.rs:421-458 | Power lost inside a compaction (output files missing or in any state, all written, edits logged, any part of the input files removed) leaves a crash image of the state before it or after it |
| `Runs.ReadsLastWrite` | src/db.rs:181-206 | At every state of the invariant a read at or past the last sequence number returns the last write of the key, or nothing after a delete |
| `Runs.ProbesAllSources` | src/db.rs:190-205 | Looking in memory and then only in the candidate tables answers as looking in every source, at every read position |
| `Runs.ManifestAgrees` | src/db.rs:388-450 | At every reachable state replaying the manifest rebuilds the version in memory, same tables in the same order, and the same file counter |
| `Runs.LevelsDisjoint` | src/version.rs:43-91 | At every reachable state the tables of each level below L0 have disjoint, sorted key ranges, and `find_in_level` finds the one table that holds the key |
| `Runs.ReplayedIsLastWrite` | src/db.rs:134-140 | The map of a history and its last writes are the same thing |
| `EngineInvariant.WriteInv` | src/db.rs:142-179 | A write, accepted or stalled, keeps the invariant and adds exactly its record to the history |
| `EngineInvariant.WriteEffects` | src/db.rs:142-179 | One round of the write loop in full: with two frozen memtables or twice the trigger in L0 nothing changes; else the record, numbered one past the last, is logged and inserted, and the memtable is set aside exactly when key, value and 16 bytes more take it to its limit |
| `EngineInvariant.FreezesWhenFull` | src/db.rs:168-176 | A memtable is set aside if and only if the accepted write, of either kind, fills it |
| `EngineInvariant.FreezeInv` | src/db.rs:168-176 | Freezing syncs the log first, so everything frozen is durable; the invariant holds |
| `EngineInvariant.SyncInv` | src/db.rs:264-267 | After `sync` every record of the log is durable |
| `EngineInvariant.DiskAdvance` | src/wal.rs:84-110 | A disk that is right with some of the log is right with more of it |
| `EngineFlush.FlushOldestInv` | src/db.rs:365-405 | Flushing the oldest frozen memtable keeps the invariant, and the manifest then knows the newest sequence number |
| `EngineFlush.RecreateLogInv` | src/db.rs:407-412 | With memory empty and the manifest up to date the log may be discarded: the tables alone answer for the whole history |
| `EngineFlush.FlushImmsInv` | src/db.rs:364-415 | `flush_imms` keeps the invariant and leaves nothing frozen |
| `EngineFlush.FlushImmsWrites` | src/db.rs:364-415 | `flush_imms` in full: each frozen memtable that holds anything becomes a file of its own on top of L0, oldest first, and nothing else of the version changes |
| `EngineFlush.FlushWrites` | src/db.rs:269-281 | `flush` leaves nothing in memory: the frozen memtables and then the current one are such files |
| `EngineFlush.FlushRestarts` | src/db.rs:269-281 | Exactly when `flush` starts the log afresh, torn bytes gone: when the memtable or the newest frozen memtable holds anything |
| `EngineFlush.FlushSources` | src/db.rs:400-404 | A flush does not change the list of sources a read walks: the memtable moves from the end of memory to the front of L0 |
| `EngineFlush.FlushListed` | src/db.rs:381-392 | The edits of a flush keep the manifest listing exactly the tables of the version |
| `EngineCompact.CompactJobInv` | src/db.rs:417-461 | A compaction keeps the invariant for every job that can be picked and every watermark |
| `EngineCompact.CompactWrites` | src/compact.rs:168-185 | At every state of the invariant, exactly the records a compaction writes: of each input key the newest version, unless it is a tombstone at or below the watermark and the output goes to the last level |
| `EngineCompact.CompactFiles` | src/db.rs:421-459 | Exactly the files there are afterwards: the new ones, and the old ones but the inputs |
| `EngineCompact.StaysNotObsolete` | src/db.rs:453-459 | No table of the new version loses its file when the inputs are removed |
| `EngineCompact.SettleEnds` | src/db.rs:283-295 | Repeating `maybe_compact` without writes ends; then nothing is over its limit and the history reads the same |
| `EngineRecover.CrashRecovers` | src/db.rs:50-76 | Every crash image of a state of the invariant recovers to the history cut exactly where the log was cut |
| `EngineRecover.RestartRecovers` | src/db.rs:316-326 | Closing in order and opening again loses nothing, in every fsync mode |
| `EngineRecover.OpenInv` | src/db.rs:50-108 | Opening a recoverable disk gives a state of the invariant for its history, though log records may already be in tables |
| `EngineRecover.OpenCounters` | src/db.rs:62-72 | The counters after opening: the greatest sequence number the manifest or a log record names, and the file counter of the manifest, at least 1 |
| `EngineRecover.OpenInterrupted` | src/db.rs:74-89 | A recovery cut short after creating the log or the manifest leaves a disk with the same history |
| `EngineRecover.EmptyRecoverable` | src/db.rs:50-89 | A directory without manifest and log holds the empty history, whatever table files lie in it |
| `Runs.FreshIs` | src/db.rs:50-108 | A new database in full: file numbers from 1, sequence numbers from 0, a manifest of the two counters, nothing else |
| `MacroRuns.FlushIsRun` | src/db.rs:269-281 | `flush` is a run of atomic sections |
| `MacroRuns.FlushImmsIsRun` | src/db.rs:364-415 | `flush_imms` is a run of atomic sections, with the log restarted where the code does |
| `MacroRuns.CompactIsRun` | src/db.rs:283-295 | `compact`, flush and up to 64 rounds, is a run of atomic sections |
| `Stalls.StallBound` | src/db.rs:151-177 | In every crash-free run from an empty database, at each release of the lock at most two memtables are frozen and L0 has at most `2 * l0_compaction_trigger + 1` files |
| `Stalls.BoundIsTight` | src/db.rs:151-177 | That bound is reached, whatever the options: operations from the empty database after which two memtables are frozen, and the next flush takes L0 to `2 * l0_compaction_trigger + 1` files |
| `Stalls.OpKeepsBound` | src/db.rs:269-281 | Write, sync, flush, compaction and the background turn each keep the bound |
| `Stalls.BackgroundUnblocks` | src/db.rs:346-357 | After one turn of the background loop no write stalls, at every state of the invariant |
| `Handles.HandlesStable` | src/db.rs:198-205 | A reader that took its tables under the lock reads the same runs however many flushes and compactions follow; no later table reuses a number for other contents |
| `Handles.RunFiles` | src/db.rs:370-371 | Below the file counter, files only ever disappear during a run |
| `Handles.SnapshotReads` | src/db.rs:185-206 | In every run without compactions, crashes included, a read at any position returns the last write up to that position |
| `Handles.CrashWhole` | src/db.rs:60-72 | After a crash the surviving log and the tables still hold every version of what is left of the history |
| `Histories.FaithfulReads` | src/db.rs:185-206 | Walking faithful sources newest first and stopping at the first hit returns the last write of the key |
| `Histories.CompleteReads` | src/db.rs:185-206 | Sources that hold every version answer every earlier read position |
| `Histories.WriteKeepsFaith` | src/db.rs:159-166 | A write into the newest source keeps the source order and the answers |
| `Histories.WritesKeepFaith` | src/db.rs:67-71 | So does a whole list of logged writes replayed into it |
| `Histories.RepeatKeepsFaith` | src/db.rs:65-72 | A flushed memtable whose records are still in the log may stand twice in the list: the source order that recovery needs |
| `Sources.WalkIsNewest` | src/db.rs:190-205 | Under the source order, stopping at the first source that answers gives the newest visible version anywhere, at every read position |
| `Sources.ProbeIsWalk` | src/version.rs:64-79 | Range check, bloom filter and one table per deep level lose no answer |
| `Probes.LevelSilent` | src/version.rs:64-91 | The candidates of one level answer nothing exactly when the level holds no visible version of the key |
| `Sources.GetSstablesForKey` | src/version.rs:64-79 | The candidate tables, L0 newest first by the open tables' own bounds and filters, then at most one per level |
| `Probes.CandidatesExactly` | src/version.rs:64-79 | A read probes exactly the tables of L0 that pass range check and filter and, below L0, those whose range spans the key |
| `Sources.FoundHolds` | src/version.rs:86-91 | In a level of disjoint ranges the first spanning table is the only one that can hold the key |
| `LevelFaith.CompactionFaithful` | src/compact.rs:103-211 | Compaction preserves meaning: sources faithful to a history before a compaction are faithful to it afterwards, whatever lies above the tables |
| `CompactionFaith.CompactionKeepsFaith` | src/compact.rs:168-185 | Replacing whole key groups of inputs by their newest versions, with tombstones dropped at the last level, brings no older value back |
| `CompactionSteps.CompactionKeepsLookups` | src/compact.rs:103-211 | A compaction changes no lookup of a key at or above the newest version of that key among the inputs |
| `Snapshots.ReadAbove` | src/compact.rs:103-211 | At every state of the invariant and for every job: a compaction changes no read of a key at or above the newest version of that key among its inputs |
| `Snapshots.ReadBelow` | src/compact.rs:168-171 | Below that version a read afterwards answers as if the input tables had never held the key, whatever the watermark |
| `Snapshots.ReadKept` | src/compact.rs:168-171 | Exactly when such a read survives the compaction: when the version it sees is also in memory or in a table the job leaves alone |
| `Snapshots.ReadLost` | src/compact.rs:168-181 | A run for every key, two values and any options: write, snapshot, write, flush until a compaction is due, compact with that snapshot as the watermark; the snapshot read finds the first value before and nothing after |
| `CompactionSteps.StepIsGood` | src/compact.rs:103-211 | What `run_compaction` writes for a picked job: fresh, sorted, disjoint tables of input records, with the newest version of every input key except dropped tombstones |
| `CompactionSteps.CompactionLightens` | src/compact.rs:128-197 | Every compaction strictly decreases the sum of records times distance from the last level |
| `CompactionSteps.NothingToPick` | src/compact.rs:45-74 | No compaction is picked exactly when L0 is below its trigger and each level from 1 to `max_levels - 2` is within its limit |
| `Compaction.PickIsFirst` | src/compact.rs:45-74 | The job leaves the first level that is over its limit, L0 first |
| `Picking.PickExactly` | src/compact.rs:45-96 | What is picked, in the numbers of the options: L0 with as many files as the trigger, all of them; else the first table of the first level whose file sizes sum to more than its limit; with them exactly the tables of the level below that meet their hull, in order. Nothing, exactly if there is no such level |
| `Picking.FirstLevelLeft` | src/compact.rs:55-59 | L1 is left exactly if L0 is below its trigger and the file sizes of L1 sum to more than `base_level_bytes` |
| `EngineOptions.LimitIs` | src/compact.rs:56-57 | The limit of L1 is the base, and of each level below it the ratio times more |
| `Compaction.PickCompaction` | src/compact.rs:45-74 | The loop picks the job the specification picks |
| `Compaction.KeyRange` | src/compact.rs:76-88 | The hull of the inputs, none for no inputs |
| `Compaction.KeptKeepsNewest` | src/compact.rs:158-185 | The kept records have strictly increasing keys: one newest version per input key, except tombstones that may be dropped |
| `Compaction.KeptExactly` | src/compact.rs:158-185 | Exactly which records are kept: the newest version of each input key, and not a tombstone at or below the watermark that would reach the last level |
| `CompactionSteps.OutputsExactly` | src/compact.rs:158-197 | The output tables hold exactly those |
| `Compaction.SplitKeepsAll` | src/compact.rs:187-197 | Splitting the output into files loses, repeats and reorders nothing and writes no empty file |
| `Compaction.SplitBySize` | src/compact.rs:187-197 | Each file is closed by the record that takes it to the target size; only the last one may stay below |
| `Compaction.OutputSizes` | src/compact.rs:187-197 | The same of the files of a job and the target size of the options |
| `Compaction.NewTablesDisjoint` | src/compact.rs:133-156 | The output files have increasing, disjoint key ranges |
| `CompactionRun.RunCompaction` | src/compact.rs:103-200 | The heap loop with its table builder writes exactly the specified output tables, byte for byte, with consecutive numbers |
| `CompactionRun.PopNext` | src/compact.rs:158-166 | Popping the heap and refilling it takes one step of the merge |
| `CompactionRun.BuildEdits` | src/compact.rs:199-208 | Additions first, then one deletion per input at the level it came from |
| `Releveling.NonInputClear` | src/compact.rs:76-96 | The hull argument: a table of the lower level that `overlapping` leaves out is clear of every input key |
| `Releveling.ApplyCompact` | src/db.rs:434-444 | What a list of files holds after the edits of a compaction, whatever list they are applied to |
| `Releveling.CollectDistinct` | src/db.rs:463-477 | `collect_file_metas` lists exactly the tables of the version, each number once |
| `CompactedLevels.NewLevelMembers` | src/db.rs:432-450 | The rebuilt version holds exactly the tables that are not inputs, and the output tables |
| `CompactedLevels.NewLevelsSound` | src/db.rs:445-450 | The rebuilt version is sound: every level in order and, below L0, disjoint |
| `CompactedLevels.CatalogFollows` | src/db.rs:428-431 | The manifest that listed the old version lists the new one after the edits |
| `Versions.Rebuilt` | src/version.rs:19-51 | Any list of exactly the live files, in any order, rebuilds the very same levels |
| `Versions.BuildFromMetas` | src/version.rs:19-51 | The loops of `from_metas`: tables pushed level by level, missing files and unknown levels skipped, then sorted |
| `Versions.FromMetasLevel` | src/version.rs:25-49 | Which tables a level holds after `from_metas`, and that they are in order |
| `Versions.ListedAs` | src/version.rs:25-40 | A table is listed with its own number, bounds and size, and opens with them |
| `Scans.ScanAgreesWithGet` | src/db.rs:212-250 | At every reachable state, for every bound and position, a scan returns in strictly increasing key order exactly the pairs past the bound that point reads at that position return |
| `Iter.MergeYieldsReads` | src/iter.rs:112-138 | A merge of sorted streams that cover the visible records yields each key once, in order, with its newest visible value, and skips tombstones |
| `Iter.MergeIterator.Next` | src/iter.rs:112-138 | Each call yields the next item of the merge, or nothing at the end |
| `Iter.YieldsTombstones` | src/iter.rs:127-136 | An iterator that does not skip tombstones yields every key, a deleted one with nothing |
| `Iter.MergeIterator.FromSortedStreams` | src/iter.rs:46-85 | The heap starts with the first visible record of every stream |
| `Iter.MergeIterator.PopAndRefill` | src/iter.rs:112-125 | Popping and refilling takes one step of the merge of the visible records |
| `Merge.MergeIsPermutation` | src/iter.rs:112-125 | The merge is a permutation of all records of the streams |
| `Merge.MergeIsSorted` | src/iter.rs:112-125 | For sorted streams the merge is sorted |
| `Merge.FirstPerKeyIsNewest` | src/iter.rs:127-130 | The first record popped for a user key is its newest version, and each key is kept once |
| `Merge.PopIsMinHead` | src/iter.rs:26-34 | The heap order pops the least internal key, ties to the lower stream |
| `MemTables.Search` | src/memtable.rs:29-47 | Lookup starts at the greatest possible version and returns the newest visible one |
| `MemTables.InsertedFresh` | src/memtable.rs:23-27 | Inserting a new internal key keeps the order and adds exactly that record |
| `MemTables.MemTable.Put` | src/memtable.rs:23-27 | `put` inserts in key order and adds key, value and 16 to the size estimate, for a value and a tombstone alike |
| `MemTables.CostSum` | src/memtable.rs:23-27 | The size estimate of a run is the sum of key, value and 16 over its records, whatever their kind |
| `MemTables.BoundIs` | src/memtable.rs:65-116 | An included bound lets through what is not below it, an excluded one what is above it |
| `MemTables.Range` | src/memtable.rs:65-116 | The range iterator yields the newest visible version of each key past the bound |
| `Reader.Get` | src/sstable/reader.rs:110-133 | Range check, bloom filter, indexed block and the walk over all blocks answer exactly as a scan of the run, even where versions of the key span blocks |
| `Reader.IterAll` | src/sstable/reader.rs:148-157 | Reading every block gives back exactly the run the table was built from |
| `Reader.RunInBuilt` | src/sstable/reader.rs:148-157 | The run in a built file is the run it was built from, for every run and block size |
| `Reader.OpenBuilt` | src/sstable/reader.rs:56-101 | Opening a built file recovers its index and bloom filter |
| `Formats.FileMeans` | src/sstable/reader.rs:56-101 | Any file with a footer opens as the footer says, and is refused exactly if index or filter is not where it points or does not decode |
| `Formats.FileRefused` | src/sstable/reader.rs:68-75 | A file below 44 bytes or without the magic number is refused |
| `Reader.ReadBlock` | src/sstable/reader.rs:135-146 | A block read through the cache is the bytes the file holds there |
| `Reader.BlockCache.Insert` | src/sstable/reader.rs:32-40 | The cache stays within max(capacity, 1); other blocks are kept or evicted, never changed |
| `Reader.MayContain` | src/sstable/reader.rs:103-108 | A table it rejects holds no version of the key; it passes exactly the keys within the bounds whose probes fall where probes of keys in the table fall |
| `Reader.RejectedKeys` | src/sstable/reader.rs:103-108 | Neither rejects a key the table holds |
| `Reader.FilterExact` | src/sstable/reader.rs:103-108 | The filter of a table passes exactly the keys whose probes fall where probes of keys in the table fall |
| `Reader.FilterSizes` | src/sstable/bloom.rs:11-16 | How large the filter of a table is and how many probes it makes |
| `Builder.SsTableBuilder.Finish` | src/sstable/builder.rs:67-104 | The file is data blocks, index, bloom filter and footer of the added records; its bounds are the first and last key |
| `Builder.SsTableBuilder.AddEntry` | src/sstable/builder.rs:40-52 | Adding an entry closes the block when it reaches the block size |
| `Builder.ChunksKeepAll` | src/sstable/builder.rs:40-65 | Cutting into blocks loses, repeats and reorders nothing |
| `Builder.CutsBySize` | src/sstable/builder.rs:49-51 | A block is closed by the very entry that takes it to the block size |
| `Builder.ChunksBySize` | src/sstable/builder.rs:40-64 | The same of the blocks of a table and the block size of the options, counted in bytes |
| `Formats.TableLayout` | src/sstable/builder.rs:67-88 | A table file: blocks, index, filter, footer, and what each field of the footer says |
| `Blocks.BlockRoundTrip` | src/sstable/block.rs:54-119 | Decoding a built block gives back its entries |
| `Blocks.IndexRoundTrip` | src/sstable/block.rs:129-166 | Decoding an encoded index gives it back |
| `Formats.EntryMeans` | src/sstable/block.rs:57-82 | A block entry from its bytes: key length, key, value length, value |
| `Formats.EntryRead` | src/sstable/block.rs:57-82 | An entry is read exactly where one stands encoded |
| `Formats.BlockMeans` | src/sstable/block.rs:34-82 | A block from its bytes: the count first, then the entries |
| `Blocks.BlockReads` | src/sstable/block.rs:57-82 | Reading goes up to the announced number and no further than the first entry that is cut short or whose key is none |
| `Formats.IndexEntryMeans` | src/sstable/block.rs:141-166 | An index entry from its bytes: separator, offset, length |
| `Formats.IndexMeans` | src/sstable/block.rs:141-166 | The index from its bytes: the count first, then the entries |
| `Formats.IndexRead` | src/sstable/block.rs:141-166 | An index is accepted only where all announced entries stand encoded |
| `Blocks.GetInBlock` | src/sstable/block.rs:20-32 | The newest visible version among the entries of a block |
| `Blocks.FindBlock` | src/sstable/block.rs:168-183 | The first block whose separator is not below the key, or the last one |
| `Blocks.BlockEntryIter.Next` | src/sstable/block.rs:57-82 | The iterator yields the entries that parse, in order, and stops at the first that does not |
| `Bloom.NoFalseNegatives` | src/sstable/bloom.rs:11-39 | Every listed key passes, for every key list and bits per key, with all bit indices in bounds under wrapping 32-bit arithmetic |
| `Bloom.PassesExactly` | src/sstable/bloom.rs:27-39 | A key passes a built filter exactly if each of its probes falls where a probe of a listed key falls; every other key is rejected |
| `Bloom.BuiltBits` | src/sstable/bloom.rs:11-25 | A bit of a built filter is set exactly if a probe of a listed key falls there |
| `Bloom.ProbeIs` | src/sstable/bloom.rs:62-69 | Where a probe falls: two checksums, the second salted with the first and at least 1, combined in 32-bit arithmetic |
| `Bloom.BuiltSizes` | src/sstable/bloom.rs:11-16 | The number of bits and probes for any key list and bits per key |
| `Bloom.Build` | src/sstable/bloom.rs:11-25 | The nested loops set exactly the specified bits |
| `Bloom.RoundTrip` | src/sstable/bloom.rs:41-60 | Decoding an encoded filter gives it back exactly when its bit count fits 64 bits and its probe count 32 |
| `Formats.FilterMeans` | src/sstable/bloom.rs:49-60 | A filter from its bytes: probes, bits, bit array; fewer than 12 bytes are refused |
| `Keys.EncodeRoundTrip` | src/key.rs:46-70 | Decoding an encoded key gives it back exactly when its sequence number is below 2^56 |
| `Formats.KeyMeans` | src/key.rs:54-70 | A key from its bytes: user key, 56-bit number from the highest byte down, kind 0 for a tombstone and 1 for a value, any other refused |
| `Formats.ShortKeyRefused` | src/key.rs:54-58 | Fewer than eight bytes are no key |
| `Keys.DecodeThenEncode` | src/key.rs:54-70 | Whatever `decode` accepts it read losslessly: encoding it again gives the same bytes |
| `Keys.EncodedOrder` | src/key.rs:92-108 | Comparing encoded keys is comparing the keys with their sequence numbers cut to 56 bits, for all keys |
| `Keys.EncodedOrderBelow` | src/key.rs:92-108 | So below 2^56 it is comparing the keys |
| `Keys.EncodedOrderHolds` | src/key.rs:92-108 | Exactly when it is, for any two keys: the user keys differ, or the cut numbers compare as the numbers do, or the cut numbers are equal and the kinds decide as the numbers do |
| `Keys.EncodedOrderBreaks` | src/key.rs:46-52 | From 2^56 on it need not be: two keys whose encodings compare the other way |
| `Keys.KeyOrder` | src/key.rs:73-83 | The key order is total, antisymmetric and transitive |
| `Formats.KeyLtIs` | src/key.rs:73-83 | User key ascending, then the newer version first, then a tombstone before a value |
| `Formats.LtIs` | src/key.rs:73-83 | User keys are ordered by the first byte in which they differ, a prefix first |
| `Formats.LeByte` | src/wal.rs:51-60 | Little-endian fields byte by byte |
| `Formats.BeByte` | src/key.rs:46-52 | Big-endian fields byte by byte |
| `Formats.CompareShort` | src/key.rs:92-108 | What comparing encoded keys does with byte strings too short for a key |
| `WriteAheadLog.TruncatedLog` | src/wal.rs:84-110 | Recovery of any byte prefix of a log succeeds with exactly the records whose frames are complete |
| `WriteAheadLog.CrashedLog` | src/wal.rs:64-110 | Whatever bytes past the synced ones survive of a log with nothing behind torn bytes, recovery gives a prefix of the records with every durable one |
| `WriteAheadLog.ReopenedHolds` | src/wal.rs:35-45 | Any file recovery accepts is the frames of what it returned and, behind them, bytes in which no frame is complete |
| `WriteAheadLog.KeptLog` | src/wal.rs:35-45 | Records appended behind torn bytes are all recovered exactly when the torn bytes happen to repeat and nothing is read in what is then left |
| `WriteAheadLog.ShortTornLosesSome` | src/wal.rs:35-45 | Behind one to three torn bytes that is never so |
| `WriteAheadLog.LostBehindTorn` | src/wal.rs:35-45 | Behind one to three torn bytes of any frame one more record of moderate size is silently lost at the next recovery |
| `WriteAheadLog.LostWrite` | src/wal.rs:64-69 | The smallest such log: one torn byte, then a write synced in `Always` mode, and recovery returns nothing |
| `LogCrashes.AcceptedLost` | src/wal.rs:35-45 | The same of the database, at every state of the invariant just reopened with one to three torn bytes: the next accepted write of moderate size, durable in `Always` mode, is not in what recovery reads of the log, and opening gives the history without it |
| `LogCrashes.LostAfterRun` | src/wal.rs:35-45 | And a run of two events that gets there, for every key and value of moderate size: the first append is torn by a crash, then a write is acknowledged; the database reads it, and after opening again does not |
| `WriteAheadLog.RecoveredIsPrefix` | src/wal.rs:84-110 | For any bytes: what recovery accepts, logged again, is a prefix of those bytes |
| `WriteAheadLog.DecodedRecord` | src/wal.rs:113-148 | `decode_record` accepts only bytes that encode what it returns |
| `WriteAheadLog.RecordRoundTrip` | src/wal.rs:51-60 | Decoding an encoded record gives it back |
| `Formats.RecordMeans` | src/wal.rs:113-148 | A log record from its bytes, magic number and kind included |
| `Formats.RecordLayout` | src/wal.rs:51-60 | And how it is written |
| `Formats.DamagedLog` | src/wal.rs:94-109 | A log with a bad checksum or a payload that is no record behind whole frames is refused, whatever follows |
| `WriteAheadLog.Recover` | src/wal.rs:84-110 | The recovery loop, a bad checksum or record being an error and a short tail the end |
| `WriteAheadLog.Wal.Append` | src/wal.rs:51-74 | One frame is appended; in `Always` mode it is durable, in `Batch` mode fewer than 256 KiB ever are not |
| `WriteAheadLog.Wal.OpenAppend` | src/wal.rs:35-45 | Reopening any file that recovery accepted gives a valid log with exactly the recovered records, all durable, the torn bytes still in it |
| `WriteAheadLog.AppendKeeps` | src/wal.rs:64-74 | Appending keeps what each fsync mode promises of the unsynced bytes |
| `WriteAheadLog.AppendSyncs` | src/wal.rs:51-82 | Exactly when an append reaches the disk: at once in `Always` mode; in `Batch` mode when the frames since the last sync come to 262144 bytes, each 29 more than key and value; never by itself in `Never` mode |
| `Framing.PrefixRecovers` | src/wal.rs:94-109 | Every byte prefix of a frame file recovers to exactly its complete frames |
| `Formats.FrameMeans` | src/wal.rs:94-109 | A frame from its bytes: length, checksum, payload; another checksum is an error |
| `Formats.FrameEnds` | src/wal.rs:98-101 | A header that promises more than is left ends the file |
| `Framing.KeptBehindTorn` | src/wal.rs:35-45 | The exact condition, for every torn tail and all appended frames, under which everything is read back |
| `Framing.ReadBehindTorn` | src/wal.rs:94-109 | What is read otherwise, for every number of torn bytes: nothing, exactly when what follows is shorter than the length field there promises; an error when the checksum does not match; or a payload nobody wrote |
| `Framing.ShortTornLoses` | src/wal.rs:94-109 | One to three torn bytes shift the length of the next frame so that it is always skipped, unless that frame is very long |
| `Framing.CleanTailKeeps` | src/wal.rs:35-45 | Appending at a frame boundary loses nothing |
| `ManifestLog.TruncatedManifest` | src/manifest.rs:65-91 | Any byte prefix of a manifest recovers to the replay of its complete edits |
| `ManifestLog.EditRoundTrip` | src/manifest.rs:113-185 | Decoding an encoded edit gives it back |
| `Formats.AddMeans` | src/manifest.rs:143-170 | An added file from its bytes: tag 1, number, level, smallest key, largest key, size |
| `Formats.DeleteMeans` | src/manifest.rs:171-176 | A deleted file: tag 2, level, number |
| `Formats.CountersMean` | src/manifest.rs:177-182 | Tag 3 is the file counter, tag 4 the last sequence number |
| `Formats.OtherTags` | src/manifest.rs:143-185 | Anything else is refused |
| `Formats.EditLayout` | src/manifest.rs:113-141 | How each edit is written |
| `Formats.FirstManifest` | src/manifest.rs:65-91 | A new database's manifest, from its bytes: file counter and last number, not exchanged |
| `Formats.DamagedManifest` | src/manifest.rs:65-91 | Behind whole edits a bad checksum or an unknown tag is refused and a payload cut short makes the decoder panic, whatever follows |
| `ManifestLog.DecodedEdit` | src/manifest.rs:143-185 | What `decode_edit` returns stands, encoded, at the front of the payload |
| `ManifestLog.DecodePanics` | src/manifest.rs:143-185 | Exactly when it panics: a known tag and no encoded edit at the front |
| `ManifestLog.RecoveredState.ApplyEdit` | src/manifest.rs:100-111 | One edit applied in place |
| `ManifestLog.Recover` | src/manifest.rs:65-91 | The recovery loop over the frames of the file, each edit applied before the next frame is read: the catalog, the corruption error, or the panic of the decoder |
| `ManifestLog.Manifest.Log` | src/manifest.rs:51-63 | One frame per edit is appended, in order |
| `ManifestCrashes.TornFlushLog` | src/db.rs:388-392 | Wherever the edits of a flush are cut, the database opened afterwards reads every key as the history that is left says; the file counter is behind a listed file, so that its number will be given out again, exactly when the cut comes after the first edit, and exactly there the disk is outside what the invariant allows |
| `ManifestCrashes.TornCompactLog` | src/db.rs:428-430 | Wherever the edits of a compaction are cut, the database opened afterwards reads a key as its last write unless the key is stale, and then it reads an older version or nothing; the file counter is behind exactly at the inner cuts of a compaction that writes anything |
| `ManifestCrashes.TornAtEnds` | src/db.rs:428-430 | No key is stale, and everything is read right, as long as no deletion was logged, once all were, or if the job has no lower inputs |
| `CutReads.CutReadsAll` | src/version.rs:64-91 | The same of the levels alone: with part of the edits applied, the candidate tables answer a key as before unless no table above the lower level has it any more and the range check there finds a lower input still listed that hides the newest version |
| `CutLevels.CutLevel` | src/version.rs:19-51 | What `from_metas` makes of a manifest with part of the edits: each level holds exactly the tables not yet deleted and the outputs already added, in order |
| `CutRuns.OldValueBack` | src/db.rs:421-447 | A run for every key and two values after which such a cut, behind the deletions of the upper inputs, brings the overwritten value back |
| `CutRuns.ReusedNumberLoses` | src/db.rs:453-459 | What a number given out twice does: after a run and a cut behind the first edit of a flush, the opened database reads a key; its next compaction writes the output under the listed number and removes it as an input; opened again, the database reads nothing |
| `Database.Db.GetWithSeq` | src/db.rs:185-206 | On the bytes of the files: an open database returns the value the sources hold at that position and, at or past the last sequence number, the value of the last write |
| `Database.Db.ScanWithSeq` | src/db.rs:212-250 | On the bytes of the files: exactly the pairs past the bound that point reads return, in strictly increasing key order |
| `Database.Db.Put` | src/db.rs:134-136 | After `put` the key reads as the value and every other key as before; only a closed database refuses, and then nothing changes |
| `Database.Db.Delete` | src/db.rs:138-140 | After `delete` the key reads as absent and every other key as before; only a closed database refuses |
| `Database.Db.Get` | src/db.rs:181-183 | `get` on an open database returns the value of the last write of the key, or nothing if that was a delete |
| `Database.Db.Write` | src/db.rs:142-179 | The write loop: rounds until one does not stall, one turn of the background loop in between; it ends, and then the history has exactly the one new write |
| `Database.Db.TryWrite` | src/db.rs:142-179 | One round does what the write step does, and says whether it stalled; it stalls exactly with two frozen memtables or twice the trigger in L0, and sets the memtable aside exactly when key, value and 16 bytes more fill it |
| `Database.Db.LookupTables` | src/db.rs:198-205 | Probing tables taken earlier, possibly before flushes and compactions, answers as of when they were taken, if the file reads succeed |
| `Database.Db.StillTaken` | src/db.rs:198-205 | Tables that were taken stay good as long as known runs stay known |
| `Database.Db.FlushOneRound` | src/db.rs:365-413 | One round of `flush_imms` on the bytes: file, manifest, version, memory and, when all is flushed, a new log |
| `Database.Db.Flush` | src/db.rs:269-281 | `flush` does what the flush step does; with anything in the memtable the log is then empty, torn bytes gone |
| `Database.Db.MaybeCompact` | src/db.rs:417-461 | `maybe_compact` on the bytes does what the compaction step does, with the oldest snapshot as watermark; the directory then holds the new files and the old ones but the inputs |
| `Database.Db.Compact` | src/db.rs:283-295 | `compact` leaves exactly the state of the flush step followed by up to 64 compaction steps |
| `Database.Db.Background` | src/db.rs:352-357 | One turn of the background loop leaves exactly the state of `flush_imms` followed by one compaction step if one is due |
| `Database.Db.Watermark` | src/snapshot.rs:43-45 | The oldest live snapshot, or the largest sequence number |
| `Database.Db.Snapshot` | src/db.rs:252-258 | A snapshot is the last sequence number, and is remembered |
| `Database.Db.Release` | src/snapshot.rs:35-39 | Dropping a snapshot removes one occurrence of its number |
| `Database.Db.Close` | src/db.rs:316-326 | Closing syncs the log |
| `Database.InstalledMetas` | src/db.rs:432-450 | The metadata after the edits lists the new version, and every listed file opens |
| `DatabaseOpen.OpenDb` | src/db.rs:50-108 | Opening fails exactly if the manifest, the log or a listed table file is corrupt, and panics exactly if the manifest decoder does; opening a good disk, its log torn or not, gives a valid database with the history on it |
| `DatabaseOpen.Reopen` | src/db.rs:50-108 | Lose power, keep the live table files, the manifest and the log cut at any byte past the synced ones, and open: a valid database, ready to lose power again, whose history lacks exactly the writes with incomplete log records, less than 256 KiB of log in `Batch` mode and none in `Always` mode |
| `DatabaseOpen.Restart` | src/db.rs:316-326 | Close and open again, on the bytes: in every fsync mode a valid database with the whole history, unless something was appended behind torn bytes |
| `DatabaseOpen.LeftHolds` | src/db.rs:53-72 | The bytes left by a loss of power, the log cut anywhere past the synced bytes, hold a disk that gives back the remaining history |
| `Room.HistoryHasRoom` | src/key.rs:46-52 | The size assumption from what a caller can check: fewer than 2^32 writes or fewer bytes than 2^32 - 2 blocks, fewer than 2^63 filter bits, each write below 4 GiB together with a block and with a key below 2 GiB, below 2^62 bytes in all counting 64 more for each, sequence numbers below 2^56 |
| `Room.EmptyDirectoryGood` | src/db.rs:50-89 | A directory with neither manifest nor log is a good disk with the empty history |
| `WriteAheadLog.FramedBytesAre` | src/wal.rs:61-64 | The bytes counted as pending are the bytes the frames take in the file |
| `Blocks.DecodeIndex` | src/sstable/block.rs:141-166 | The decoding loop, with an error for every truncation |
| `DbFacts.CompactHolds` | src/db.rs:421-459 | After a compaction the bytes in the directory, the open tables and the runs on record fit the new version |
| `DbFacts.InputsRemoved` | src/db.rs:453-459 | Of the files in the directory a compaction removes exactly its inputs; all others keep their bytes |
| `DbFacts.FlushHolds` | src/db.rs:370-403 | After a flush they do, too |
| `DbFacts.FlushEditsFit` | src/db.rs:381-392 | The edits a flush logs fit the fields of the manifest format while file numbers fit 64 bits |
| `DbFacts.CompactEditsFit` | src/compact.rs:199-208 | So do the edits of a compaction |

## Left out

- Database.Db.Write: other threads can write between its rounds, and more than one background turn can pass; the
  method is one writer with one background thread.
- DatabaseOpen.Reopen: says nothing of a log in which records stand behind torn bytes; `WriteAheadLog.KeptLog` and
  `Framing.ReadBehindTorn` say what recovery reads then. So does DatabaseOpen.Restart.
- ManifestLog.Manifest.Log: is taken as atomic; see Assumptions. Edits appended behind torn bytes of a manifest fare
  as `Framing.KeptBehindTorn` says.
- Database.Db.LookupTables: a file removed since the lock was released is an error, as in the code; how long files
  stay readable after removal is the operating system's business.
- Bloom.Build: the number of probes is computed as `bits_per_key * 69 / 100`, clamped to 1..30, in place of the
  floating-point product.
- EngineCompact.SettleEnds: that the 64 rounds of one `compact` call are enough is not claimed; it is not so for every
  database.
- Reading the runs of the listed tables at `open`, so that the model's tables carry them: the code reads only index
  and bloom filter and leaves the blocks for later.
- `FsyncMode::Never` under a loss of power, durability of the directory entry of a recreated log, I/O errors: the
  code promises nothing there. Crash-free runs cover all three modes.
- Threads, condition variables, sleeps and the background loop's timing: lock-protected sections are atomic and come
  in any order; crashes inside a section are covered by the crash lemmas.
- Overflow of 64-bit counters, file numbers and `level_ratio` powers.
- `MergeIterator::from_mem_and_sst` (no caller), `DbStats`, write amplification counters, the command line, benches.
