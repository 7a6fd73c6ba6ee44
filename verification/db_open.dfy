/** Opening a database from the bytes on disk, and what is there after a loss of power
    (src/db.rs 50-108). */
module DatabaseOpen {
  import opened ByteStrings
  import opened Keys
  import opened Records
  import opened Bloom
  import opened Builder
  import opened Reader
  import opened WriteAheadLog
  import opened ManifestLog
  import opened MemTables
  import opened Versions
  import opened Histories
  import opened EngineOptions
  import opened Engine
  import opened EngineInvariant
  import opened EngineRecover
  import opened DbFacts
  import opened Database
  import CompactedLevels
  import EngineFlush
  import Handles
  import Runs

  // ---------------------------------------------------------------- bytes that hold a disk

  function ManifestFile(hash: Hash, d: Disk): Option<bytes> {
    match d.manifest case None => None case Some(es) => Some(ManifestBytes(hash, es))
  }

  /** The log file holds the log of `d`: recovery reads exactly its records, and there are bytes
      behind them if a record was torn. */
  ghost predicate HoldsLog(hash: Hash, logFile: Option<bytes>, d: Disk) {
    match logFile
    case None => d.wal == None
    case Some(buf) =>
      d.wal.Some? && Recovered(hash, buf) == Ok(d.wal.value) && (d.torn <==> buf != LogBytes(hash, d.wal.value))
  }

  /** The numbers the manifest lists. */
  function ListedNums(d: Disk): set<nat> {
    set m | m in Replay(d.Edits()).files :: m.num
  }

  /** The files of a directory hold `d`: the manifest whole frames, the log what `HoldsLog` says,
      every listed table file its run; other files may be anything. */
  ghost predicate HoldsDisk(o: Options, manifestFile: Option<bytes>, logFile: Option<bytes>, dir: Dir, d: Disk) {
    && manifestFile == ManifestFile(o.fmt.hash, d) && HoldsLog(o.fmt.hash, logFile, d)
    && (forall e :: e in d.Edits() ==> FitsEdit(e))
    && d.files.Keys == ListedNums(d) && BytesOf(o.fmt, dir, d.files)
  }

  /** The disk gives back `H`, and there is room for what it holds. */
  ghost predicate GivesBack(o: Options, d: Disk, H: History) {
    Recoverable(o, d, H) && RoomFor(o.fmt, H) && Engine.Open(o, d).nextSeq < U64_MAX
  }

  lemma HoldsDiskIs(o: Options, manifestFile: Option<bytes>, logFile: Option<bytes>, dir: Dir, d: Disk)
    ensures HoldsDisk(o, manifestFile, logFile, dir, d) <==>
            && manifestFile == ManifestFile(o.fmt.hash, d) && HoldsLog(o.fmt.hash, logFile, d)
            && (forall e :: e in d.Edits() ==> FitsEdit(e))
            && d.files.Keys == ListedNums(d) && BytesOf(o.fmt, dir, d.files)
  {
  }

  lemma GivesBackIs(o: Options, d: Disk, H: History)
    ensures GivesBack(o, d, H) <==> Recoverable(o, d, H) && RoomFor(o.fmt, H) && Engine.Open(o, d).nextSeq < U64_MAX
  {
  }

  /** A good disk: the premise under which opening succeeds. */
  ghost predicate Good(o: Options, manifestFile: Option<bytes>, logFile: Option<bytes>, dir: Dir, d: Disk, H: History) {
    HoldsDisk(o, manifestFile, logFile, dir, d) && GivesBack(o, d, H)
  }

  lemma GoodIs(o: Options, manifestFile: Option<bytes>, logFile: Option<bytes>, dir: Dir, d: Disk, H: History)
    ensures Good(o, manifestFile, logFile, dir, d, H) <==> HoldsDisk(o, manifestFile, logFile, dir, d) && GivesBack(o, d, H)
  {
  }

  /** What `Manifest::recover` makes of a manifest that may not be there. */
  function ReadCatalog(hash: Hash, file: Option<bytes>): Loaded<Catalog> {
    match file case None => Loaded(EmptyCatalog) case Some(buf) => RecoveredCatalog(hash, buf)
  }

  lemma ManifestReplays(hash: Hash, d: Disk)
    requires forall e :: e in d.Edits() ==> FitsEdit(e)
    ensures ReadCatalog(hash, ManifestFile(hash, d)) == Loaded(Replay(d.Edits()))
  {
    hide FitsEdit, RecoveredCatalog, ManifestBytes, Replay;
    if d.manifest.Some? { WholeManifest(hash, d.manifest.value); } else { FirstEdits(0, 0); }
  }

  lemma LogReplays(hash: Hash, logFile: Option<bytes>, d: Disk)
    requires HoldsLog(hash, logFile, d)
    ensures (match logFile case None => Ok([]) case Some(buf) => Recovered(hash, buf)) == Ok(d.Log())
    ensures d.TornAt() == TornIn(hash, logFile, d.Log())
  {
    hide Recovered, LogBytes;
  }

  // ---------------------------------------------------------------- the pieces of open

  /** The runs of the listed files that are there. */
  method ReadRuns(metas: seq<FileMeta>, dir: Dir, ghost fmt: Format, ghost files: Files) returns (out: Files)
    ensures Listable(fmt, dir, files, metas) && files.Keys == (set m | m in metas :: m.num) ==> out == files
  {
    hide *;
    out := map[];
    NoRunsYet(files, metas);
    for i := 0 to |metas|
      invariant Listable(fmt, dir, files, metas) ==> SomeRuns(files, out, metas[..i])
    {
      var m := metas[i];
      if Listable(fmt, dir, files, metas) {
        assert m in metas;
        ListedRun(fmt, dir, files, metas, m);
        MoreRuns(files, out, metas, i);
      }
      if m.num in dir { out := out[m.num := RunIn(dir[m.num])]; }
    }
    assert metas[..|metas|] == metas;
    if Listable(fmt, dir, files, metas) && files.Keys == (set m | m in metas :: m.num) { AllRuns(files, out, metas); }
  }

  /** `out` is `files` cut down to the numbers in `metas`. */
  ghost predicate SomeRuns(files: Files, out: Files, metas: seq<FileMeta>) {
    && out.Keys == (set m | m in metas :: m.num)
    && forall n :: n in out ==> n in files && out[n] == files[n]
  }

  lemma ListedRun(fmt: Format, dir: Dir, files: Files, metas: seq<FileMeta>, m: FileMeta)
    requires Listable(fmt, dir, files, metas) && m in metas
    ensures m.num in dir && m.num in files && RunIn(dir[m.num]) == files[m.num]
  {
    hide DistinctNums, TableBytes, FitsTable, RunIn;
    assert ListedFile(fmt, dir, files, m);
    RunInBuilt(fmt, files[m.num]);
  }

  lemma MoreRuns(files: Files, out: Files, metas: seq<FileMeta>, i: nat)
    requires i < |metas| && metas[i].num in files
    ensures SomeRuns(files, out, metas[..i]) ==> SomeRuns(files, out[metas[i].num := files[metas[i].num]], metas[..i + 1])
  {
    assert metas[..i + 1] == metas[..i] + [metas[i]];
  }

  lemma NoRunsYet(files: Files, metas: seq<FileMeta>)
    ensures SomeRuns(files, map[], metas[..0])
  {
  }

  lemma AllRuns(files: Files, out: Files, metas: seq<FileMeta>)
    requires SomeRuns(files, out, metas) && files.Keys == (set m | m in metas :: m.num)
    ensures out == files
  {
  }

  /** Replay the log into a memtable and the sequence counter. */
  method ReplayLog(rs: seq<Record>, lastSeq: nat) returns (mem: MemTable, nextSeq: nat)
    ensures fresh(mem) && mem.entries == InsertedAll([], rs) && mem.approxBytes == CostOf(rs)
    ensures nextSeq == MaxSeqFrom(lastSeq, rs)
  {
    hide Inserted, Cost;
    mem := new MemTable();
    nextSeq := lastSeq;
    for i := 0 to |rs|
      invariant fresh(mem) && mem.entries == InsertedAll([], rs[..i]) && mem.approxBytes == CostOf(rs[..i])
      invariant nextSeq == MaxSeqFrom(lastSeq, rs[..i])
    {
      assert rs[..i + 1][..i] == rs[..i];
      if nextSeq < rs[i].ik.seqno { nextSeq := rs[i].ik.seqno; }
      mem.Put(rs[i]);
    }
    assert rs[..|rs|] == rs;
  }

  /** Whether bytes stand behind the records `rs` of a log file. */
  function TornIn(hash: Hash, file: Option<bytes>, rs: seq<Record>): Option<nat> {
    if file.Some? && file.value != LogBytes(hash, rs) then Some(|rs|) else None
  }

  method OpenLog(hash: Hash, fsync: FsyncMode, file: Option<bytes>, ghost rs: seq<Record>) returns (wal: Wal)
    requires match file case None => rs == [] case Some(buf) => Recovered(hash, buf) == Ok(rs)
    ensures fresh(wal) && wal.hash == hash && wal.fsync == fsync
    ensures wal.Valid() && wal.View() == Log(rs, |rs|, 0, TornIn(hash, file, rs))
  {
    hide LogBytes, Log.Kept, Recovered, Wal.Valid;
    if file.Some? {
      wal := new Wal.OpenAppend(hash, fsync, file.value, rs);
    } else {
      wal := new Wal.Create(hash, fsync);
    }
  }

  /** A manifest that is not there is created and told the counters. */
  method OpenManifest(hash: Hash, file: Option<bytes>, ghost es: seq<Edit>, nextFile: nat, nextSeq: nat)
    returns (m: Manifest)
    ensures fresh(m) && m.hash == hash
    ensures file.None? ==> m.Valid() && m.edits == [SetNextFileNum(nextFile), SetLastSeq(nextSeq)]
    ensures file.Some? && file.value == ManifestBytes(hash, es) ==> m.Valid() && m.edits == es
  {
    hide ManifestBytes;
    if file.Some? {
      m := new Manifest.Open(hash, file.value, es);
    } else {
      m := new Manifest.Create(hash);
      m.Log([SetNextFileNum(nextFile), SetLastSeq(nextSeq)]);
      assert [] + m.edits == m.edits;
    }
  }

  // ---------------------------------------------------------------- open

  /** Why opening fails: the manifest, the log or a listed table file is corrupt. */
  ghost predicate Corrupted(o: Options, manifestFile: Option<bytes>, logFile: Option<bytes>, dir: Dir) {
    var c := ReadCatalog(o.fmt.hash, manifestFile);
    || c.Refused?
    || (c.Loaded? && logFile.Some? && Recovered(o.fmt.hash, logFile.value).Corrupt?)
    || (c.Loaded? && exists m :: m in c.value.files && BadFile(dir, m))
  }

  lemma CorruptedIs(o: Options, manifestFile: Option<bytes>, logFile: Option<bytes>, dir: Dir)
    ensures var c := ReadCatalog(o.fmt.hash, manifestFile);
            Corrupted(o, manifestFile, logFile, dir) <==>
            || c.Refused? || (c.Loaded? && logFile.Some? && Recovered(o.fmt.hash, logFile.value).Corrupt?)
            || (c.Loaded? && exists m :: m in c.value.files && BadFile(dir, m))
    ensures ReadCatalog(o.fmt.hash, manifestFile)
         == match manifestFile case None => Loaded(EmptyCatalog) case Some(buf) => RecoveredCatalog(o.fmt.hash, buf)
  {
  }

  /** What the recovered parts are when the disk is good. */
  lemma GoodParts(o: Options, manifestFile: Option<bytes>, logFile: Option<bytes>, dir: Dir, d: Disk, H: History)
    requires Good(o, manifestFile, logFile, dir, d, H)
    ensures ReadCatalog(o.fmt.hash, manifestFile) == Loaded(Replay(d.Edits()))
    ensures (match logFile case None => Ok([]) case Some(buf) => Recovered(o.fmt.hash, buf)) == Ok(d.Log())
    ensures Inv(o, Engine.Open(o, d), H) && RoomFor(o.fmt, H) && Engine.Open(o, d).nextSeq < U64_MAX
    ensures Listable(o.fmt, dir, d.files, Replay(d.Edits()).files)
        && SameFiles(Replay(d.Edits()).files, Engine.Open(o, d).levels)
    ensures d.files.Keys == (set m | m in Replay(d.Edits()).files :: m.num) && BytesOf(o.fmt, dir, d.files)
    ensures d.TornAt() == TornIn(o.fmt.hash, logFile, d.Log())
    ensures manifestFile.None? <==> d.manifest.None?
    ensures EditsFit(Engine.Open(o, d).edits, Engine.Open(o, d).nextFile, o.maxLevels)
    ensures manifestFile.Some? ==> manifestFile.value == ManifestBytes(o.fmt.hash, d.Edits())
  {
    hide *;
    var s := Engine.Open(o, d);
    GoodIs(o, manifestFile, logFile, dir, d, H);
    HoldsDiskIs(o, manifestFile, logFile, dir, d);
    GivesBackIs(o, d, H);
    ManifestReplays(o.fmt.hash, d);
    LogReplays(o.fmt.hash, logFile, d);
    OpenInv(o, d, H);
    OpenFields(o, d);
    RecoverableIs(o, d, H);
    VersionListable(o, s, H, dir, Replay(d.Edits()).files);
    EditsIs(d);
    FilesOfIs(o.fmt.hash, d);
    SmallEdits(0, s.nextFile);
    BelowTop(s.nextSeq);
    SmallEdits(0, s.nextSeq);
    EditsFitIs(s.edits, s.nextFile, o.maxLevels);
  }

  lemma FilesOfIs(hash: Hash, d: Disk)
    ensures ManifestFile(hash, d) == if d.manifest.None? then None else Some(ManifestBytes(hash, d.manifest.value))
    ensures d.wal.None? ==> HoldsLog(hash, None, d)
    ensures ListedNums(d) == set m | m in Replay(d.Edits()).files :: m.num
  {
  }

  /** The directory of a good disk fits the version it opens to. */
  lemma OpenHolds(o: Options, d: Disk, H: History, dir: Dir, handles: map<nat, SsTable>)
    requires Inv(o, Engine.Open(o, d), H) && BytesOf(o.fmt, dir, d.files)
    requires SameFiles(Replay(d.Edits()).files, Engine.Open(o, d).levels)
    requires d.files.Keys == (set m | m in Replay(d.Edits()).files :: m.num)
    requires forall m :: m in Replay(d.Edits()).files ==> HandleFor(o.fmt, d.files, handles, m)
    ensures FilesHold(o.fmt, dir, d.files, Engine.Open(o, d).levels, handles, d.files, Engine.Open(o, d).nextFile)
  {
    hide *;
    var s, metas := Engine.Open(o, d), Replay(d.Edits()).files;
    OpenFields(o, d);
    EngineFlush.SameFilesParts(metas, s.levels);
    BytesOfIs(o.fmt, dir, d.files);
    StoresIs(o.fmt, dir, d.files);
    forall n | n in d.files ensures n < s.nextFile {
      var m :| m in metas && m.num == n;
      CompactedLevels.HasMetaIs(s.levels, m);
      var t :| t in s.levels[m.level] && m == MetaOf(m.level, t);
      EngineFlush.MetaOfFields(m.level, t);
      Handles.LiveFile(o, s, H, m.level, t);
    }
    forall l: nat, t: Table | l < |s.levels| && t in s.levels[l] ensures Opened(o.fmt, handles, d.files, t) {
      Handles.LiveFile(o, s, H, l, t);
      VersionOpened(o, s, H, metas, handles, d.files, l, t);
    }
    FilesHoldIs(o.fmt, dir, d.files, s.levels, handles, d.files, s.nextFile);
  }

  lemma OpenMem(o: Options, d: Disk, H: History, mem: MemTable)
    requires Inv(o, Engine.Open(o, d), H) && Engine.Open(o, d).nextSeq < U64_MAX && mem.entries == Engine.Open(o, d).mem
    ensures mem.Valid()
  {
    var s := Engine.Open(o, d);
    hide Inv, Engine.Open, Sorted;
    InvIs(o, s, H);
    LiveIs(o, s, H);
    MemoryInHistory(o, s, H);
    forall r | r in mem.entries ensures r.ik.seqno < U64_MAX {
      ContentsHas(mem.entries, r);
      ContentsHas(H, r);
    }
  }

  lemma EmptyCache(fmt: Format, runs: Files)
    ensures Coherent(fmt, map[], runs)
  {
  }

  /** `Db::open`. It fails exactly if something on disk is corrupt, and panics exactly if the manifest
      makes the decoder panic; opening a good disk gives a valid database that stands for the
      history on it. */
  method OpenDb(o: Options, manifestFile: Option<bytes>, logFile: Option<bytes>, dir: Dir, ghost d: Disk,
      ghost H: History)
    returns (r: Loaded<Db>)
    requires o.Usable()
    ensures r.Refused? <==> Corrupted(o, manifestFile, logFile, dir)
    ensures r.Panics? <==> ReadCatalog(o.fmt.hash, manifestFile).Panics?
    ensures Good(o, manifestFile, logFile, dir, d, H) ==> r.Loaded?
    ensures r.Loaded? ==> fresh(r.value) && r.value.o == o && !r.value.closed && r.value.cache.capacity == o.cacheCapacity
    ensures r.Loaded? && Good(o, manifestFile, logFile, dir, d, H) ==>
              && fresh(r.value.Repr()) && r.value.Valid() && r.value.H == H && r.value.View() == Engine.Open(o, d)
  {
    hide *;
    ghost var good := Good(o, manifestFile, logFile, dir, d, H);
    if good { GoodParts(o, manifestFile, logFile, dir, d, H); OpenFields(o, d); }
    CorruptedIs(o, manifestFile, logFile, dir);
    var cache := new BlockCache(o.cacheCapacity);
    var catalog := ManifestLog.Recover(o.fmt.hash, manifestFile);
    if catalog.Panics? { return Panics; }
    if catalog.Refused? { return Refused; }
    var metas := catalog.value.files;
    var handles := OpenListed(o.fmt, dir, d.files, metas);
    if handles.None? { return Refused; }
    var files := ReadRuns(metas, dir, o.fmt, d.files);
    var levels := BuildFromMetas(o.fmt, files, metas, o.maxLevels);
    var nextFile := AtLeastOne(catalog.value.nextFileNum);
    var entries := WriteAheadLog.Recover(o.fmt.hash, logFile);
    if entries.Corrupt? { return Refused; }
    var mem, nextSeq := ReplayLog(entries.value, catalog.value.lastSeq);
    var wal := OpenLog(o.fmt.hash, o.fsync, logFile, entries.value);
    var manifest := OpenManifest(o.fmt.hash, manifestFile, d.Edits(), nextFile, nextSeq);
    var db := new Db(o, mem, levels, handles.value, wal, manifest, cache, nextSeq, nextFile, dir, files, files, H);
    if good {
      OpenHolds(o, d, H, dir, handles.value);
      OpenMem(o, d, H, mem);
      EmptyCache(o.fmt, files);
      EmptyBounded(cache);
      OpenCosts(o, d);
      db.Reassemble(Engine.Open(o, d));
      ReprIs(db);
    }
    return Loaded(db);
  }

  lemma EmptyBounded(cache: BlockCache)
    requires cache.blocks == map[]
    ensures cache.Bounded()
  {
  }

  lemma OpenCosts(o: Options, d: Disk)
    ensures Engine.Open(o, d).memBytes == CostOf(d.Log())
  {
    hide FromMetas, InsertedAll, MaxSeqFrom, Replay, CostOf;
  }

  lemma ReprIs(db: Db)
    ensures db.Repr() == {db, db.mem, db.wal, db.manifest, db.cache}
  {
  }

  // ---------------------------------------------------------------- losing power

  /** What the lost power left of a database: any prefix of the log file that has the synced
      bytes, cut inside a record or not; the manifest; the files of the live tables. Other files may
      be anything. Nothing was appended behind torn bytes. */
  ghost predicate Survives(db: Db, logFile: bytes, dir: Dir)
    reads db, db.mem, db.wal, db.manifest
  {
    && db.wal.View().Whole() && db.wal.durable <= |db.wal.recs|
    && logFile <= db.wal.file && |LogBytes(db.o.fmt.hash, db.wal.recs[..db.wal.durable])| <= |logFile|
    && forall l: nat, t :: l < |db.levels| && t in db.levels[l] && t.num in db.dir ==> t.num in dir && dir[t.num] == db.dir[t.num]
  }

  /** The disk those bytes hold: the first `n` records of the log, with torn bytes or not. */
  ghost function LeftOf(s: State, n: nat, torn: bool): Disk
    requires n <= |s.log.recs|
  {
    var nums := set m | m in Replay(s.edits).files :: m.num;
    Disk(Some(s.edits), Some(s.log.recs[..n]), torn, map k | k in s.files && k in nums :: s.files[k])
  }

  lemma LeftIs(s: State, n: nat, torn: bool)
    requires n <= |s.log.recs|
    ensures var d, nums := LeftOf(s, n, torn), set m | m in Replay(s.edits).files :: m.num;
            && d.manifest == Some(s.edits) && d.wal == Some(s.log.recs[..n]) && d.torn == torn && d.Edits() == s.edits
                && d.Log() == s.log.recs[..n]
            && (forall k :: k in d.files <==> k in s.files && k in nums)
            && (forall k :: k in d.files ==> d.files[k] == s.files[k])
  {
    hide Replay;
  }

  lemma LeftImage(o: Options, s: State, H: History, n: nat, torn: bool)
    requires Inv(o, s, H) && s.log.Whole() && s.log.durable <= n <= |s.log.recs|
    ensures CrashImage(s, n, LeftOf(s, n, torn)) && LeftOf(s, n, torn).files.Keys == ListedNums(LeftOf(s, n, torn))
  {
    hide *;
    var d := LeftOf(s, n, torn);
    LeftIs(s, n, torn);
    InvIs(o, s, H);
    CataloguedIs(s);
    EngineFlush.SameFilesParts(Replay(s.edits).files, s.levels);
    FilesOfIs(o.fmt.hash, d);
    forall l: nat, t: Table | l < |s.levels| && t in s.levels[l] && t.num in s.files
      ensures t.num in d.files && d.files[t.num] == s.files[t.num] {
      var m := MetaOf(l, t);
      CompactedLevels.HasMetaIs(s.levels, m);
      EngineFlush.MetaOfFields(l, t);
      assert m in Replay(s.edits).files;
    }
    KeepsLiveIs(s, d.files);
    forall k | k in ListedNums(d) ensures k in d.files {
      var m :| m in Replay(s.edits).files && m.num == k;
      ListedLive(o, s, H, m);
    }
    ImageKept(s, n, d);
  }

  lemma ImageKept(s: State, n: nat, d: Disk)
    requires s.log.Whole() && s.log.durable <= n <= |s.log.recs| && d.manifest == Some(s.edits)
    requires d.wal == Some(s.log.recs[..n]) && KeepsLive(s, d.files)
    ensures CrashImage(s, n, d)
  {
  }

  /** A listed file is there, and is a live table's. */
  lemma ListedLive(o: Options, s: State, H: History, m: FileMeta)
    requires Inv(o, s, H) && m in Replay(s.edits).files
    ensures m.num in s.files && exists l: nat, t: Table :: l < |s.levels| && t in s.levels[l] && t.num == m.num
  {
    hide *;
    InvIs(o, s, H);
    CataloguedIs(s);
    EngineFlush.SameFilesParts(Replay(s.edits).files, s.levels);
    CompactedLevels.HasMetaIs(s.levels, m);
    var t :| t in s.levels[m.level] && m == MetaOf(m.level, t);
    EngineFlush.MetaOfFields(m.level, t);
    Handles.LiveFile(o, s, H, m.level, t);
  }

  lemma RoomPrefix(fmt: Format, H: History, n: nat)
    requires RoomFor(fmt, H) && n <= |H|
    ensures RoomFor(fmt, H[..n])
  {
    hide FitsTable, FitsRecord, Sorted;
  }

  lemma {:induction false} MaxSeqAtMost(from: nat, rs: seq<Record>, bound: nat)
    requires from <= bound && forall r :: r in rs ==> r.ik.seqno <= bound
    ensures MaxSeqFrom(from, rs) <= bound
  {
    if rs != [] {
      assert forall r :: r in rs[..|rs| - 1] ==> r in rs;
      MaxSeqAtMost(from, rs[..|rs| - 1], bound);
    }
  }

  lemma LeftUsable(o: Options, s: State, H: History, n: nat, torn: bool)
    requires Inv(o, s, H) && RoomFor(o.fmt, H) && s.nextSeq < U64_MAX && 0 <= Flushed(s, H) && n <= |s.log.recs|
    requires Recoverable(o, LeftOf(s, n, torn), Remaining(s, H, n))
    ensures GivesBack(o, LeftOf(s, n, torn), Remaining(s, H, n))
  {
    hide *;
    var d, w := LeftOf(s, n, torn), s.log.recs;
    LeftIs(s, n, torn);
    OnDiskIs(s, H, n);
    InvIs(o, s, H);
    LiveIs(o, s, H);
    LoggedIs(s, H);
    CataloguedIs(s);
    RoomPrefix(o.fmt, H, |H| - |w| + n);
    OpenFields(o, d);
    forall r | r in w[..n] ensures r in H { LogInHistory(H, w, n, r); }
    MaxSeqAtMost(Replay(s.edits).lastSeq, w[..n], s.nextSeq);
    GivesBackIs(o, d, Remaining(s, H, n));
  }

  lemma LogInHistory(H: History, w: seq<Record>, n: nat, r: Record)
    requires |w| <= |H| && H[|H| - |w|..] == w && n <= |w| && r in w[..n]
    ensures r in H
  {
    var i :| 0 <= i < n && w[..n][i] == r;
    assert H[|H| - |w|..][i] == r;
  }

  /** How many records of the log are left, and that recovery reads exactly those. */
  lemma LeftLog(db: Db, logFile: bytes, dir: Dir)
    requires db.Valid() && Survives(db, logFile, dir)
    ensures var log, n := db.View().log, CompleteRecords(db.wal.recs, |logFile|);
            && log.recs == db.wal.recs && log.Whole() && log.durable <= n <= |log.recs|
            && Recovered(db.o.fmt.hash, logFile) == Ok(log.recs[..n])
  {
    hide *;
    var s, log := db.View(), db.wal.View();
    db.ViewIs();
    db.ManifestParts();
    SurvivesIs(db, logFile, dir);
    InvIs(db.o, s, db.H);
    LoggedIs(s, db.H);
    assert log.recs[..|log.recs|] == log.recs;
    forall r | r in log.recs ensures FitsRecord(r) {
      LogInHistory(db.H, log.recs, |log.recs|, r);
      RoomRecord(db.o.fmt, db.H, r);
    }
    CrashedLog(db.o.fmt.hash, log, db.wal.tail, db.wal.file, |logFile|);
    assert db.wal.file[..|logFile|] == logFile;
  }

  /** The bytes that are left hold that disk. */
  lemma LeftHolds(db: Db, logFile: bytes, dir: Dir)
    requires db.Valid() && db.o.fsync != Never && Survives(db, logFile, dir)
    requires db.nextFile < TWO64 && db.o.maxLevels <= TWO32
    ensures var s, n := db.View(), CompleteRecords(db.wal.recs, |logFile|);
            && s.log.Whole() && s.log.durable <= n <= |s.log.recs| && 0 <= Flushed(s, db.H)
            && var torn := logFile != LogBytes(db.o.fmt.hash, s.log.recs[..n]);
            Good(db.o, Some(db.manifest.file), Some(logFile), dir, LeftOf(s, n, torn), Remaining(s, db.H, n))
  {
    hide *;
    var o, s, H, n := db.o, db.View(), db.H, CompleteRecords(db.wal.recs, |logFile|);
    db.ViewIs();
    LeftLog(db, logFile, dir);
    var torn := logFile != LogBytes(o.fmt.hash, s.log.recs[..n]);
    LeftImage(o, s, H, n, torn);
    CrashRecovers(o, s, H, n, LeftOf(s, n, torn));
    LeftGood(db, logFile, dir);
  }

  lemma LeftGood(db: Db, logFile: bytes, dir: Dir)
    requires db.Valid() && Survives(db, logFile, dir) && db.nextFile < TWO64 && db.o.maxLevels <= TWO32
    requires var s, n := db.View(), CompleteRecords(db.wal.recs, |logFile|);
             && n <= |s.log.recs| && 0 <= Flushed(s, db.H)
             && var torn := logFile != LogBytes(db.o.fmt.hash, s.log.recs[..n]);
             Recoverable(db.o, LeftOf(s, n, torn), Remaining(s, db.H, n))
    ensures var s, n := db.View(), CompleteRecords(db.wal.recs, |logFile|);
            var torn := logFile != LogBytes(db.o.fmt.hash, s.log.recs[..n]);
            Good(db.o, Some(db.manifest.file), Some(logFile), dir, LeftOf(s, n, torn), Remaining(s, db.H, n))
  {
    hide *;
    var o, s, H, n := db.o, db.View(), db.H, CompleteRecords(db.wal.recs, |logFile|);
    db.ViewIs();
    SurvivesIs(db, logFile, dir);
    LeftLog(db, logFile, dir);
    var torn := logFile != LogBytes(o.fmt.hash, s.log.recs[..n]);
    FilesHoldIs(o.fmt, db.dir, s.files, s.levels, db.handles, db.runs, s.nextFile);
    BytesOfIs(o.fmt, db.dir, s.files);
    LeftUsable(o, s, H, n, torn);
    LeftIs(s, n, torn);
    LeftImage(o, s, H, n, torn);
    var d := LeftOf(s, n, torn);
    forall k | k in d.files ensures k in dir && dir[k] == TableBytes(o.fmt, d.files[k]) {
      FilesOfIs(o.fmt.hash, d);
      var m :| m in Replay(s.edits).files && m.num == k;
      ListedLive(o, s, H, m);
      var l: nat, t: Table :| l < |s.levels| && t in s.levels[l] && t.num == m.num;
    }
    BytesOfIs(o.fmt, dir, d.files);
    FilesOfIs(o.fmt.hash, d);
    EditsFitIs(s.edits, s.nextFile, o.maxLevels);
    HoldsLogIs(o.fmt.hash, logFile, d);
    HoldsDiskIs(o, Some(db.manifest.file), Some(logFile), dir, d);
    GoodIs(o, Some(db.manifest.file), Some(logFile), dir, d, Remaining(s, H, n));
  }

  lemma HoldsLogIs(hash: Hash, buf: bytes, d: Disk)
    requires d.wal.Some? && Recovered(hash, buf) == Ok(d.wal.value) && (d.torn <==> buf != LogBytes(hash, d.wal.value))
    ensures HoldsLog(hash, Some(buf), d)
  {
  }

  lemma LostLittle(o: Options, s: State, H: History, n: nat)
    requires Inv(o, s, H) && o.fsync != Never && s.log.durable <= n <= |s.log.recs|
    ensures 0 <= Flushed(s, H) && Remaining(s, H, n) <= H
    ensures FramedBytes(H[|Remaining(s, H, n)|..]) < BATCH_BYTES
    ensures o.fsync == Always ==> Remaining(s, H, n) == H
  {
    hide *;
    InvIs(o, s, H);
    SafeIs(o, s, H);
    LoggedIs(s, H);
    Runs.KeptIs(s.log, o.fsync);
    OnDiskIs(s, H, n);
    var f, w, d := |H| - |s.log.recs|, s.log.recs, s.log.durable;
    assert H[f + n..] == H[f..][n..] == w[n..];
    Runs.TailBytes(w[d..], n - d);
    assert w[d..][n - d..] == w[n..];
    if o.fsync == Always {
      assert w[n..] == [];
      assert H[..|H|] == H;
      Runs.NoBytes();
    }
  }

  /** Lose power and open again, with the log cut at any byte past the synced ones: the database is
      valid and stands for all writes but those whose log records are not whole, which took less
      than 256 KiB of log in `Batch` mode and are none in `Always` mode. */
  method Reopen(db: Db, logFile: bytes, dir: Dir) returns (r: Loaded<Db>)
    requires db.Valid() && db.o.fsync != Never && Survives(db, logFile, dir)
    requires db.nextFile < TWO64 && db.o.maxLevels <= TWO32
    ensures r.Loaded? && fresh(r.value) && fresh(r.value.Repr()) && r.value.Valid() && r.value.wal.View().Whole()
    ensures r.value.H <= db.H && |db.H[|r.value.H|..]| == |db.wal.recs| - CompleteRecords(db.wal.recs, |logFile|)
    ensures FramedBytes(db.H[|r.value.H|..]) < BATCH_BYTES
    ensures db.o.fsync == Always ==> r.value.H == db.H
  {
    hide *;
    ghost var s, H, n := db.View(), db.H, CompleteRecords(db.wal.recs, |logFile|);
    LeftHolds(db, logFile, dir);
    LeftLog(db, logFile, dir);
    db.ViewIs();
    LostLittle(db.o, s, H, n);
    OnDiskIs(s, H, n);
    ghost var d := LeftOf(s, n, logFile != LogBytes(db.o.fmt.hash, s.log.recs[..n]));
    r := OpenDb(db.o, Some(db.manifest.file), Some(logFile), dir, d, Remaining(s, H, n));
    OpenFields(db.o, d);
    r.value.ManifestParts();
    OpenWhole(d);
    LoggedIs(s, H);
  }

  /** The whole log file and the whole directory survive an orderly close. */
  lemma NothingLost(db: Db)
    requires db.Valid() && db.wal.View().Whole()
    ensures Survives(db, db.wal.file, db.dir)
    ensures |db.View().log.recs| == |db.wal.recs| == CompleteRecords(db.wal.recs, |db.wal.file|)
  {
    var hash, log := db.o.fmt.hash, db.wal.View();
    assert log.durable <= |log.recs| && FileHolds(hash, log, db.wal.tail, db.wal.file);
    hide *;
    db.ViewIs();
    db.ManifestParts();
    LogFields(db.wal);
    WholeFile(hash, log, db.wal.tail, db.wal.file);
    AllRecords(hash, log.recs, |db.wal.file|);
    LogBytesSplit(hash, log.recs, log.durable);
    AllSurvives(db);
  }

  lemma LogFields(wal: Wal)
    ensures wal.View().recs == wal.recs && wal.View().durable == wal.durable
  {
  }

  lemma LogBytesSplit(hash: Hash, rs: seq<Record>, d: nat)
    requires d <= |rs|
    ensures |LogBytes(hash, rs[..d])| <= |LogBytes(hash, rs)|
  {
    hide Framing.Frames, RecordBytes;
    assert Encoded(rs) == Encoded(rs[..d]) + Encoded(rs[d..]);
    Framing.FramesSplit(hash, Encoded(rs[..d]), Encoded(rs[d..]));
  }

  lemma AllSurvives(db: Db)
    requires db.wal.View().Whole() && db.wal.durable <= |db.wal.recs|
    requires |LogBytes(db.o.fmt.hash, db.wal.recs[..db.wal.durable])| <= |db.wal.file|
    ensures Survives(db, db.wal.file, db.dir)
  {
    hide LogBytes, Log.Whole;
  }

  lemma ClosedGood(db: Db)
    requires db.Valid() && db.wal.View().Whole() && db.nextFile < TWO64 && db.o.maxLevels <= TWO32
    ensures exists d :: Good(db.o, Some(db.manifest.file), Some(db.wal.file), db.dir, d, db.H)
                && OpenWholeLog(db.o, d)
  {
    hide *;
    var o, s, H, n := db.o, db.View(), db.H, |db.wal.recs|;
    db.ViewIs();
    NothingLost(db);
    LeftLog(db, db.wal.file, db.dir);
    InvIs(o, s, H);
    LoggedIs(s, H);
    OnDiskIs(s, H, n);
    assert H[..|H|] == H && s.log.recs[..n] == s.log.recs;
    var torn := db.wal.file != LogBytes(o.fmt.hash, s.log.recs[..n]);
    var d := LeftOf(s, n, torn);
    LeftIs(s, n, torn);
    LeftImage(o, s, H, n, torn);
    ImageIs(s, n, d);
    ClosedFrom(s, d);
    RestartRecovers(o, s, H, d);
    LeftGood(db, db.wal.file, db.dir);
    OpenWhole(d);
    OpenFields(o, d);
    OpenWholeLogIs(o, d);
  }

  /** The log of the opened database is whole again. */
  ghost predicate OpenWholeLog(o: Options, d: Disk) {
    Engine.Open(o, d).log.Whole()
  }

  lemma OpenWholeLogIs(o: Options, d: Disk)
    ensures OpenWholeLog(o, d) <==> Engine.Open(o, d).log.Whole()
  {
  }

  lemma ClosedFrom(s: State, d: Disk)
    requires s.log.Whole() && d.manifest == Some(s.edits) && d.wal == Some(s.log.recs) && KeepsLive(s, d.files)
    ensures ClosedImage(s, d)
  {
  }

  /** Close and open again: in every fsync mode the database has all its writes, if nothing was
      appended behind torn bytes. */
  method Restart(db: Db) returns (r: Loaded<Db>)
    requires db.Valid() && db.wal.View().Whole() && db.nextFile < TWO64 && db.o.maxLevels <= TWO32
    modifies db`closed, db.wal
    ensures db.closed && r.Loaded? && fresh(r.value) && fresh(r.value.Repr()) && r.value.Valid() && !r.value.closed
    ensures r.value.H == old(db.H) && r.value.wal.View().Whole()
  {
    hide *;
    ghost var s := db.View();
    db.ManifestParts();
    db.Close();
    SyncFields(db.o, s);
    SyncWhole(s.log, db.o.fsync);
    db.ManifestParts();
    ClosedGood(db);
    ghost var d :| Good(db.o, Some(db.manifest.file), Some(db.wal.file), db.dir, d, db.H) && OpenWholeLog(db.o, d);
    db.ViewIs();
    r := OpenDb(db.o, Some(db.manifest.file), Some(db.wal.file), db.dir, d, db.H);
    r.value.ManifestParts();
    OpenWholeLogIs(db.o, d);
  }

  lemma SyncWhole(log: Log, fsync: FsyncMode)
    ensures log.Sync(fsync).Whole() == log.Whole()
  {
  }

  lemma OpenWhole(d: Disk)
    ensures Log(d.Log(), |d.Log()|, 0, d.TornAt()).Whole()
  {
  }

  lemma SurvivesIs(db: Db, logFile: bytes, dir: Dir)
    requires db.Valid() && Survives(db, logFile, dir)
    ensures var s, hash := db.View(), db.o.fmt.hash;
            && s.log == db.wal.View() && s.log.recs == db.wal.recs && s.log.Whole() && s.log.durable <= |s.log.recs|
            && FileHolds(hash, s.log, db.wal.tail, db.wal.file)
            && logFile <= db.wal.file && |LogBytes(hash, s.log.recs[..s.log.durable])| <= |logFile|
            && s.edits == db.manifest.edits && db.manifest.file == ManifestBytes(hash, s.edits)
            && forall l: nat, t :: l < |s.levels| && t in s.levels[l] && t.num in db.dir ==> t.num in dir && dir[t.num] == db.dir[t.num]
  {
    hide Inv, RoomFor, EditsFit, FilesHold, Coherent, MemTable.Valid, Log.Kept, LogBytes, ManifestBytes, FileHolds;
  }
}
