/** The engine as a state machine: the lock-protected sections of src/db.rs as steps, and the
    invariant they keep. */
module Engine {
  import opened ByteStrings
  import opened Keys
  import opened Records
  import opened WriteAheadLog
  import opened ManifestLog
  import opened Versions
  import opened Sources
  import opened Histories
  import opened EngineOptions
  import opened Compaction
  import opened CompactedLevels
  import opened CompactionSteps
  import MemTables
  import Releveling

  // ---------------------------------------------------------------- state

  /** What `Inner` holds, with files as the runs they hold and logs as the records in them. */
  datatype State = State(
    mem: seq<Record>,
    memBytes: nat,
    imms: seq<seq<Record>>,
    levels: Levels,
    files: Files,
    log: Log,
    edits: seq<Edit>,
    nextSeq: nat,
    nextFile: nat)

  /** What a crash leaves: the manifest's edits, the log's whole records, whether there are bytes
      of a torn one behind them, and the table files. */
  datatype Disk = Disk(manifest: Option<seq<Edit>>, wal: Option<seq<Record>>, torn: bool, files: Files)
  {
    function Edits(): seq<Edit> { if manifest.Some? then manifest.value else [] }
    function Log(): seq<Record> { if wal.Some? then wal.value else [] }
    function TornAt(): Option<nat> { if wal.Some? && torn then Some(|wal.value|) else None }
  }

  /** Frozen memtables as sources, newest first. */
  function Frozen(imms: seq<seq<Record>>): seq<Source> {
    if imms == [] then [] else [Contents(imms[|imms| - 1])] + Frozen(imms[..|imms| - 1])
  }

  function InMemory(s: State): seq<Source> {
    [Contents(s.mem)] + Frozen(s.imms)
  }

  /** Every place a read looks, newest first. */
  function AllSources(s: State): seq<Source> {
    InMemory(s) + TableSources(s.levels)
  }

  // ---------------------------------------------------------------- steps

  function NewRecord(s: State, key: bytes, value: bytes, kind: ValueKind): Record {
    Record(InternalKey(key, s.nextSeq + 1, kind), value)
  }

  /** Log the record, then insert it. */
  function AppendRecord(o: Options, s: State, r: Record): State {
    s.(log := s.log.Append(o.fsync, r), mem := MemTables.Inserted(s.mem, r),
       memBytes := s.memBytes + MemTables.Cost(r), nextSeq := r.ik.seqno)
  }

  /** Sync the log and set the memtable aside. */
  function Freeze(o: Options, s: State): State {
    s.(log := s.log.Sync(o.fsync), imms := s.imms + [s.mem], mem := [], memBytes := 0)
  }

  predicate Stalled(o: Options, s: State)
    requires |s.levels| >= 1
  {
    |s.imms| >= 2 || |s.levels[0]| >= o.l0Trigger * 2
  }

  /** One round of the write loop; a stalled round changes nothing and tries again. */
  function Write(o: Options, s: State, key: bytes, value: bytes, kind: ValueKind): State
    requires |s.levels| >= 1
  {
    if Stalled(o, s) then s
    else
      var s' := AppendRecord(o, s, NewRecord(s, key, value, kind));
      if s'.memBytes >= o.memtableBytes then Freeze(o, s') else s'
  }

  function SyncLog(o: Options, s: State): State {
    s.(log := s.log.Sync(o.fsync))
  }

  function FlushEdits(s: State, t: Table): seq<Edit> {
    [AddFile(MetaOf(0, t)), SetNextFileNum(s.nextFile + 1), SetLastSeq(s.nextSeq)]
  }

  /** Write the oldest frozen memtable to a new L0 file; an empty one is just dropped. */
  function FlushOldest(o: Options, s: State): State
    requires s.imms != [] && |s.levels| >= 1
  {
    if s.imms[0] == [] then s.(imms := s.imms[1..])
    else
      var t := NewTable(o.fmt, s.nextFile, s.imms[0]);
      s.(imms := s.imms[1..], files := s.files[s.nextFile := s.imms[0]], edits := s.edits + FlushEdits(s, t),
         levels := s.levels[0 := s.levels[0] + [t]], nextFile := s.nextFile + 1)
  }

  /** Everything logged is in table files: start the log afresh. */
  function RecreateLog(s: State): State {
    s.(log := Log([], 0, 0, None))
  }

  /** One round of `flush_imms`. */
  function FlushRound(o: Options, s: State): State
    requires s.imms != [] && |s.levels| >= 1
  {
    var s' := FlushOldest(o, s);
    if s.imms[0] != [] && s'.imms == [] && s'.mem == [] then RecreateLog(s') else s'
  }

  function FlushImms(o: Options, s: State): State
    requires |s.levels| >= 1
    decreases |s.imms|
  {
    if s.imms == [] then s else FlushImms(o, FlushRound(o, s))
  }

  function Flush(o: Options, s: State): State
    requires |s.levels| >= 1
  {
    FlushImms(o, if s.mem != [] then Freeze(o, s) else s)
  }

  function Obsolete(job: Job): set<nat> {
    (set t | t in job.upper :: t.num) + (set t | t in job.lower :: t.num)
  }

  /** Apply a compaction: new tables, edits logged, version rebuilt, input files removed. */
  function CompactJob(o: Options, s: State, job: Job, watermark: nat): State {
    var step := StepOf(o, s.files, s.levels, s.nextFile, job, watermark);
    s.(levels := step.NewLevels(), files := step.NewFiles() - Obsolete(job), edits := s.edits + step.Edits(),
       nextFile := s.nextFile + |step.added|)
  }

  /** `maybe_compact`. */
  function MaybeCompact(o: Options, s: State, watermark: nat): Option<State>
    requires o.Usable() && |s.levels| == o.maxLevels
  {
    match Pick(o, s.levels)
    case None => None
    case Some(job) => Some(CompactJob(o, s, job, watermark))
  }

  function MaxSeqFrom(from: nat, rs: seq<Record>): nat {
    if rs == [] then from
    else
      var m := MaxSeqFrom(from, rs[..|rs| - 1]);
      if m < rs[|rs| - 1].ik.seqno then rs[|rs| - 1].ik.seqno else m
  }

  function AtLeastOne(n: nat): nat {
    if n == 0 then 1 else n
  }

  /** `Db::open`: replay the manifest, open the tables it lists, replay the log. What is left of a
      torn log record stays in the file. */
  function Open(o: Options, d: Disk): State {
    var c := Replay(d.Edits());
    var nextSeq, nextFile := MaxSeqFrom(c.lastSeq, d.Log()), AtLeastOne(c.nextFileNum);
    State(MemTables.InsertedAll([], d.Log()), MemTables.CostOf(d.Log()), [],
          FromMetas(o.fmt, d.files, c.files, o.maxLevels), d.files, Log(d.Log(), |d.Log()|, 0, d.TornAt()),
          if d.manifest.Some? then d.manifest.value else [SetNextFileNum(nextFile), SetLastSeq(nextSeq)],
          nextSeq, nextFile)
  }

  // ---------------------------------------------------------------- the invariant

  /** What reads rely on: the sources answer as the history does, the version is sound. */
  ghost predicate Live(o: Options, s: State, H: History) {
    && |s.levels| == o.maxLevels
    && Increasing(H) && (forall r :: r in H ==> r.ik.seqno <= s.nextSeq)
    && Sorted(s.mem) && (forall m :: m in s.imms ==> Sorted(m))
    && Faithful(AllSources(s), H)
    && Releveling.Sound(o.fmt, s.files, s.levels, s.nextFile)
  }

  /** Replaying the manifest gives the version and the file counter in memory. */
  ghost predicate Catalogued(s: State) {
    var c := Replay(s.edits);
    SameFiles(c.files, s.levels) && AtLeastOne(c.nextFileNum) == s.nextFile && c.lastSeq <= s.nextSeq
  }

  /** How much of the history is no longer in the log. */
  function Flushed(s: State, H: History): int {
    |H| - |s.log.recs|
  }

  /** The log is the end of the history; whatever memory holds is in it. */
  ghost predicate Logged(s: State, H: History) {
    && 0 <= Flushed(s, H) && H[Flushed(s, H)..] == s.log.recs
    && (forall r :: r in H[..Flushed(s, H)] ==> r.ik.seqno <= Replay(s.edits).lastSeq)
    && Contents(s.mem) <= Contents(s.log.recs)
    && (forall m :: m in s.imms ==> Contents(m) <= Contents(s.log.recs))
  }

  /** What is left of the history if a crash keeps the first `n` records of the log. */
  function Remaining(s: State, H: History, n: nat): History
    requires 0 <= Flushed(s, H) && n <= |s.log.recs|
  {
    H[..Flushed(s, H) + n]
  }

  /** What recovery would read if a crash kept the first `n` records of the log. */
  function OnDisk(s: State, n: nat): seq<Source>
    requires n <= |s.log.recs|
  {
    [Contents(s.log.recs[..n])] + TableSources(s.levels)
  }

  /** A crash that keeps the durable part of the log loses nothing before the rest of it. */
  ghost predicate Safe(o: Options, s: State, H: History) {
    && s.log.Kept(o.fsync)
    && 0 <= Flushed(s, H)
    && (forall m :: m in s.imms ==> Contents(m) <= Contents(s.log.recs[..s.log.durable]))
    && Faithful(OnDisk(s, s.log.durable), Remaining(s, H, s.log.durable))
  }

  /** Closed in order and opened again, with the whole log, the database reads the same: in every
      fsync mode. */
  ghost predicate Reopens(s: State, H: History) {
    Faithful([Contents(s.log.recs)] + TableSources(s.levels), H)
  }

  /** The invariant. Without fsync nothing is promised of the disk after a crash. */
  ghost predicate Inv(o: Options, s: State, H: History) {
    Live(o, s, H) && Catalogued(s) && Logged(s, H) && Reopens(s, H) && (o.fsync != Never ==> Safe(o, s, H))
  }

  /** A disk from which opening the database gives back the history `H`. */
  ghost predicate Recoverable(o: Options, d: Disk, H: History) {
    var c, w := Replay(d.Edits()), d.Log();
    var levels := FromMetas(o.fmt, d.files, c.files, o.maxLevels);
    && SameFiles(c.files, levels) && Releveling.Sound(o.fmt, d.files, levels, AtLeastOne(c.nextFileNum))
    && Increasing(H) && |w| <= |H| && H[|H| - |w|..] == w
    && (forall r :: r in H[..|H| - |w|] ==> r.ik.seqno <= c.lastSeq)
    && Faithful([Contents(w)] + TableSources(levels), H)
  }
}
