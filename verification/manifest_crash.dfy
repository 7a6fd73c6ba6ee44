/** Power lost while edits are being logged: what a database opened after a cut of a `Manifest::log`
    call reads, and which cuts leave the file counter behind (src/manifest.rs 51-63, src/db.rs
    381-392 and 421-447). */
module ManifestCrashes {
  import opened ByteStrings
  import opened Records
  import opened WriteAheadLog
  import opened ManifestLog
  import opened Versions
  import opened Sources
  import opened Histories
  import opened EngineOptions
  import opened Compaction
  import opened Engine
  import opened EngineInvariant
  import opened EngineRecover
  import Builder
  import CompactedLevels
  import CompactionSteps
  import CutLevels
  import CutReads
  import DbFacts
  import EngineCompact
  import EngineFlush
  import MemTables
  import Probes
  import Releveling
  import Runs
  import Snapshots

  // ---------------------------------------------------------------- reads and the file counter

  /** What a point read finds: memory first, then the candidate tables. */
  ghost function Found(o: Options, s: State, k: bytes, maxSeq: nat): Option<Record> {
    FirstHit(InMemory(s) + RunsOf(Candidates(o.fmt, s.levels, k)), k, maxSeq)
  }

  lemma FoundIs(o: Options, s: State, k: bytes, maxSeq: nat)
    ensures Found(o, s, k, maxSeq) == FirstHit(InMemory(s) + RunsOf(Candidates(o.fmt, s.levels, k)), k, maxSeq)
    ensures Found(o, s, k, maxSeq) == match FirstHit(InMemory(s), k, maxSeq)
                                      case Some(r) => Some(r)
                                      case None => Probes.ReadFrom(o.fmt, s.levels, 0, k, maxSeq)
  {
    hide InMemory, FirstHit, Candidates, RunsOf;
    FirstHitSplit(InMemory(s), RunsOf(Candidates(o.fmt, s.levels, k)), k, maxSeq);
    Probes.FromTop(o.fmt, s.levels, k);
  }

  /** Every read of the opened database past its last number gives the last write in `H`. */
  ghost predicate ReadsAll(o: Options, d: Disk, H: History) {
    var s := Open(o, d);
    forall k, maxSeq :: s.nextSeq <= maxSeq ==> ValueOf(Found(o, s, k, maxSeq)) == ValueOf(LastWrite(H, k))
  }

  lemma ReadsAllIs(o: Options, d: Disk, H: History)
    ensures ReadsAll(o, d, H) <==>
            forall k, maxSeq :: Open(o, d).nextSeq <= maxSeq ==>
              ValueOf(Found(o, Open(o, d), k, maxSeq)) == ValueOf(LastWrite(H, k))
  {
    hide Open, Found, LastWrite;
  }

  /** A file is listed at or above the file counter: its number will be given out again. */
  ghost predicate Behind(d: Disk) {
    var c := Replay(d.Edits());
    exists m :: m in c.files && AtLeastOne(c.nextFileNum) <= m.num
  }

  lemma BehindIs(d: Disk)
    ensures Behind(d) <==>
            exists m :: m in Replay(d.Edits()).files && AtLeastOne(Replay(d.Edits()).nextFileNum) <= m.num
  {
  }

  lemma ListedBelow(fmt: Builder.Format, files: Files, metas: seq<FileMeta>, levels: Levels, next: nat, m: FileMeta)
    requires SameFiles(metas, levels) && Releveling.Sound(fmt, files, levels, next) && m in metas
    ensures m.num < next
  {
    hide *;
    EngineFlush.SameFilesParts(metas, levels);
    CompactedLevels.HasMetaIs(levels, m);
    var t :| t in levels[m.level] && m == MetaOf(m.level, t);
    EngineFlush.MetaOfFields(m.level, t);
    EngineFlush.SoundFacts(fmt, files, levels, next);
  }

  /** From a disk that holds a history every key reads right, and no number is given out twice. */
  lemma RecoveredReads(o: Options, d: Disk, H: History)
    requires Recoverable(o, d, H)
    ensures ReadsAll(o, d, H) && !Behind(d)
  {
    hide *;
    var s, c := Open(o, d), Replay(d.Edits());
    OpenInv(o, d, H);
    forall k, maxSeq | s.nextSeq <= maxSeq ensures ValueOf(Found(o, s, k, maxSeq)) == ValueOf(LastWrite(H, k)) {
      FoundIs(o, s, k, maxSeq);
      Runs.ProbesAllSources(o, s, H, k, maxSeq);
      Runs.ReadsLastWrite(o, s, H, k, maxSeq);
    }
    ReadsAllIs(o, d, H);
    RecoverableIs(o, d, H);
    forall m | m in c.files ensures m.num < AtLeastOne(c.nextFileNum) {
      ListedBelow(o.fmt, d.files, c.files, FromMetas(o.fmt, d.files, c.files, o.maxLevels), AtLeastOne(c.nextFileNum), m);
    }
    BehindIs(d);
  }

  /** The file counter plays no part in what is read. */
  lemma CounterUnread(o: Options, d: Disk, e: Disk, H: History)
    requires ReadsAll(o, e, H) && d.Log() == e.Log() && d.files == e.files
    requires Replay(d.Edits()).files == Replay(e.Edits()).files && Replay(d.Edits()).lastSeq == Replay(e.Edits()).lastSeq
    ensures ReadsAll(o, d, H)
  {
    hide *;
    OpenFields(o, d);
    OpenFields(o, e);
    ReadsAllIs(o, d, H);
    ReadsAllIs(o, e, H);
    var s, t := Open(o, d), Open(o, e);
    InMemoryIs(s);
    InMemoryIs(t);
    forall k, maxSeq ensures Found(o, s, k, maxSeq) == Found(o, t, k, maxSeq) {
      FoundIs(o, s, k, maxSeq);
      FoundIs(o, t, k, maxSeq);
    }
  }

  // ---------------------------------------------------------------- a flush

  /** What is known of the state depends on its edits only through what they replay to. */
  lemma OtherEdits(o: Options, s: State, H: History, edits: seq<Edit>)
    requires Inv(o, s, H) && Catalogued(s.(edits := edits))
    requires 0 <= Flushed(s, H) && forall r :: r in H[..Flushed(s, H)] ==> r.ik.seqno <= Replay(edits).lastSeq
    ensures Inv(o, s.(edits := edits), H)
  {
    hide *;
    var s' := s.(edits := edits);
    InvIs(o, s, H);
    LiveIs(o, s, H);
    LiveIs(o, s', H);
    SourcesIs(s);
    SourcesIs(s');
    LoggedIs(s, H);
    LoggedIs(s', H);
    ReopensIs(s, H);
    ReopensIs(s', H);
    SafeIs(o, s, H);
    SafeIs(o, s', H);
    if o.fsync != Never {
      OnDiskIs(s, H, s.log.durable);
      OnDiskIs(s', H, s.log.durable);
    }
    InvIs(o, s', H);
  }

  lemma FirstTwo(es: seq<Edit>, m: FileMeta, next: nat)
    ensures Replay(es + [AddFile(m)]) == Replay(es).(files := Replay(es).files + [m])
    ensures Replay(es + [AddFile(m), SetNextFileNum(next)])
         == Catalog(Replay(es).files + [m], next, Replay(es).lastSeq)
  {
    var e1, e2 := AddFile(m), SetNextFileNum(next);
    hide ApplyAll;
    ApplySplit(EmptyCatalog, es, [e1]);
    ApplySplit(EmptyCatalog, es, [e1, e2]);
    ApplySplit(Replay(es), [e1], [e2]);
    assert [e1] + [e2] == [e1, e2];
    Releveling.ApplyOne(Replay(es), e1);
    Releveling.ApplyOne(Applied(Replay(es), e1), e2);
  }

  /** The disk when power is lost after `m` edits of a flush were logged. */
  function FlushCut(o: Options, s: State, n: nat, torn: bool, m: nat): Disk
    requires s.imms != [] && s.imms[0] != [] && |s.levels| >= 1 && n <= |s.log.recs| && m <= 3
  {
    var t := NewTable(o.fmt, s.nextFile, s.imms[0]);
    Disk(Some(s.edits + FlushEdits(s, t)[..m]), Some(s.log.recs[..n]), torn, FlushOldest(o, s).files)
  }

  /** The state whose disk it is when only the last sequence number is missing. */
  lemma FlushedButSeq(o: Options, s: State, H: History)
    requires Inv(o, s, H) && s.imms != [] && s.imms[0] != [] && |s.levels| >= 1
    ensures var t := NewTable(o.fmt, s.nextFile, s.imms[0]);
            Inv(o, FlushOldest(o, s).(edits := s.edits + [AddFile(MetaOf(0, t)), SetNextFileNum(s.nextFile + 1)]), H)
  {
    hide *;
    var t, s' := NewTable(o.fmt, s.nextFile, s.imms[0]), FlushOldest(o, s);
    var edits := s.edits + [AddFile(MetaOf(0, t)), SetNextFileNum(s.nextFile + 1)];
    InvIs(o, s, H);
    LoggedIs(s, H);
    LoggedIs(s', H);
    CataloguedIs(s);
    CataloguedIs(s');
    CataloguedIs(s'.(edits := edits));
    EngineFlush.FlushFields(o, s);
    EngineFlush.FlushOldestInv(o, s, H);
    EngineFlush.FlushReplay(s.edits, MetaOf(0, t), s.nextFile + 1, s.nextSeq);
    FirstTwo(s.edits, MetaOf(0, t), s.nextFile + 1);
    InvIs(o, s', H);
    OtherEdits(o, s', H, edits);
  }

  /** A flush logs the new file, the file counter and the last sequence number. Wherever it is cut,
      the database opened afterwards reads all of the history; cut after the first edit it is not
      in a state the invariant allows, since its file counter is behind. */
  lemma TornFlushLog(o: Options, s: State, H: History, n: nat, torn: bool, m: nat)
    requires Inv(o, s, H) && o.fsync != Never && s.imms != [] && s.imms[0] != [] && |s.levels| >= 1
    requires s.log.Whole() && s.log.durable <= n <= |s.log.recs| && m <= 3
    ensures 0 <= Flushed(s, H)
    ensures ReadsAll(o, FlushCut(o, s, n, torn, m), Remaining(s, H, n))
    ensures Behind(FlushCut(o, s, n, torn, m)) <==> m == 1
    ensures Recoverable(o, FlushCut(o, s, n, torn, m), Remaining(s, H, n)) <==> m != 1
  {
    hide *;
    InvIs(o, s, H);
    LoggedIs(s, H);
    var H' := Remaining(s, H, n);
    if m != 1 {
      FlushRecovers(o, s, H, n, torn, m);
      RecoveredReads(o, FlushCut(o, s, n, torn, m), H');
    } else {
      FlushRecovers(o, s, H, n, torn, 2);
      RecoveredReads(o, FlushCut(o, s, n, torn, 2), H');
      var t, d, e := NewTable(o.fmt, s.nextFile, s.imms[0]), FlushCut(o, s, n, torn, 1), FlushCut(o, s, n, torn, 2);
      var es := [AddFile(MetaOf(0, t)), SetNextFileNum(s.nextFile + 1), SetLastSeq(s.nextSeq)];
      FlushCutIs(o, s, n, torn, 1);
      FlushCutIs(o, s, n, torn, 2);
      assert es[..1] == [AddFile(MetaOf(0, t))] && es[..2] == [AddFile(MetaOf(0, t)), SetNextFileNum(s.nextFile + 1)];
      EditsIs(d);
      EditsIs(e);
      FirstTwo(s.edits, MetaOf(0, t), s.nextFile + 1);
      CounterUnread(o, d, e, H');
      CataloguedIs(s);
      EngineFlush.FlushFields(o, s);
      EngineFlush.MetaOfFields(0, t);
      assert MetaOf(0, t) in Replay(d.Edits()).files;
      BehindIs(d);
      if Recoverable(o, d, H') { RecoveredReads(o, d, H'); }
    }
  }

  /** Opened after the first edit: the new table is there, the file counter is where it was. */
  lemma FirstEditOpened(o: Options, s: State, H: History, n: nat, torn: bool)
    requires Inv(o, s, H) && s.imms != [] && s.imms[0] != [] && |s.levels| >= 1 && n <= |s.log.recs|
    ensures var t, s' := NewTable(o.fmt, s.nextFile, s.imms[0]), Open(o, FlushCut(o, s, n, torn, 1));
            && s'.levels == EngineFlush.WithTop(s.levels, t) && s'.nextFile == s.nextFile && s'.imms == []
            && t.num == s.nextFile && s'.mem == MemTables.InsertedAll([], s.log.recs[..n]) && s'.log.recs == s.log.recs[..n]
            && SameFiles(Replay(s'.edits).files, s'.levels) && WellFormed(o.fmt, s'.files, s'.levels)
  {
    hide *;
    var t, s' := NewTable(o.fmt, s.nextFile, s.imms[0]), FlushOldest(o, s);
    var d, e := FlushCut(o, s, n, torn, 1), FlushCut(o, s, n, torn, 2);
    var es := [AddFile(MetaOf(0, t)), SetNextFileNum(s.nextFile + 1), SetLastSeq(s.nextSeq)];
    var s2 := s'.(edits := s.edits + es[..2]);
    FlushCutIs(o, s, n, torn, 1);
    FlushCutIs(o, s, n, torn, 2);
    assert es[..1] == [AddFile(MetaOf(0, t))] && es[..2] == [AddFile(MetaOf(0, t)), SetNextFileNum(s.nextFile + 1)];
    EditsIs(d);
    EditsIs(e);
    FirstTwo(s.edits, MetaOf(0, t), s.nextFile + 1);
    FlushedButSeq(o, s, H);
    EngineFlush.FlushFields(o, s);
    InvIs(o, s, H);
    InvIs(o, s2, H);
    CataloguedIs(s);
    CataloguedIs(s2);
    KeepsLiveIs(s2, s2.files);
    ImageLevels(o, s2, H, e);
    CompactionSteps.SoundParts(o.fmt, e.files, s2.levels, s2.nextFile);
    OpenFields(o, d);
  }

  lemma FlushRecovers(o: Options, s: State, H: History, n: nat, torn: bool, m: nat)
    requires Inv(o, s, H) && o.fsync != Never && s.imms != [] && s.imms[0] != [] && |s.levels| >= 1
    requires s.log.Whole() && s.log.durable <= n <= |s.log.recs| && m <= 3 && m != 1
    ensures 0 <= Flushed(s, H) && Recoverable(o, FlushCut(o, s, n, torn, m), Remaining(s, H, n))
  {
    hide *;
    var t, s' := NewTable(o.fmt, s.nextFile, s.imms[0]), FlushOldest(o, s);
    var meta, d := MetaOf(0, t), FlushCut(o, s, n, torn, m);
    var es := [AddFile(meta), SetNextFileNum(s.nextFile + 1), SetLastSeq(s.nextSeq)];
    InvIs(o, s, H);
    LoggedIs(s, H);
    EngineFlush.FlushFields(o, s);
    EngineFlush.FlushOldestInv(o, s, H);
    FlushCutIs(o, s, n, torn, m);
    EditsIs(d);
    OnDiskIs(s, H, n);
    LoggedIs(s', H);
    OnDiskIs(s', H, n);
    if m == 0 {
      assert s.edits + es[..0] == s.edits;
      Runs.OldFilesAre(s, s'.files);
      Runs.OldFilesLive(o, s, H, s'.files);
      Runs.ImageOf(s, n, torn, s'.files);
      CrashRecovers(o, s, H, n, d);
    } else if m == 2 {
      assert es[..2] == [AddFile(meta), SetNextFileNum(s.nextFile + 1)];
      var s2 := s'.(edits := s.edits + es[..2]);
      FlushedButSeq(o, s, H);
      KeepsLiveIs(s2, s2.files);
      Runs.ImageOf(s2, n, torn, s2.files);
      CrashRecovers(o, s2, H, n, d);
      LoggedIs(s2, H);
      OnDiskIs(s2, H, n);
    } else {
      assert es[..3] == es;
      KeepsLiveIs(s', s'.files);
      Runs.ImageOf(s', n, torn, s'.files);
      CrashRecovers(o, s', H, n, d);
    }
  }

  lemma FlushCutIs(o: Options, s: State, n: nat, torn: bool, m: nat)
    requires s.imms != [] && s.imms[0] != [] && |s.levels| >= 1 && n <= |s.log.recs| && m <= 3
    ensures var t := NewTable(o.fmt, s.nextFile, s.imms[0]);
            var es := [AddFile(MetaOf(0, t)), SetNextFileNum(s.nextFile + 1), SetLastSeq(s.nextSeq)];
            FlushCut(o, s, n, torn, m) == Disk(Some(s.edits + es[..m]), Some(s.log.recs[..n]), torn,
                                               FlushOldest(o, s).files)
  {
    hide FlushOldest, NewTable;
  }

  // ---------------------------------------------------------------- a compaction

  /** The disk when power is lost after `m` edits of a compaction were logged. */
  function CompactCut(o: Options, s: State, job: Job, watermark: nat, n: nat, torn: bool, m: nat): Disk
    requires n <= |s.log.recs| && m <= |EngineCompact.JobStep(o, s, job, watermark).Edits()|
  {
    var step := EngineCompact.JobStep(o, s, job, watermark);
    Disk(Some(s.edits + step.Edits()[..m]), Some(s.log.recs[..n]), torn, step.NewFiles())
  }

  /** Edits that change no counter and delete no file of that number. */
  ghost predicate Spares(es: seq<Edit>, num: nat) {
    forall e :: e in es ==> e.AddFile? || (e.DeleteFile? && e.num != num)
  }

  lemma {:induction false} SparedStays(c: Catalog, es: seq<Edit>, m: FileMeta)
    requires Spares(es, m.num)
    ensures ApplyAll(c, es).nextFileNum == c.nextFileNum
    ensures m in c.files || AddFile(m) in es ==> m in ApplyAll(c, es).files
  {
    if es != [] {
      var front, e := es[..|es| - 1], es[|es| - 1];
      assert es == front + [e] && e in es;
      assert forall x :: x in front ==> x in es;
      SparedStays(c, front, m);
      if e.DeleteFile? { Releveling.RetainMembers(ApplyAll(c, front).files, e.level, e.num, m); }
    }
  }

  lemma {:induction false} AddEditsFirst(level: nat, ts: seq<Table>)
    requires ts != []
    ensures AddEdits(level, ts) != [] && AddEdits(level, ts)[0] == AddFile(MetaOf(level, ts[0]))
  {
    if |ts| > 1 { AddEditsFirst(level, ts[..|ts| - 1]); }
  }

  lemma EditsBegin(s: CompactedLevels.Step)
    requires s.added != []
    ensures |s.Edits()| > 1 && s.Edits()[0] == AddFile(MetaOf(s.job.level + 1, s.added[0]))
    ensures forall i :: 0 <= i < |s.Edits()| - 1 ==>
              || s.Edits()[i] in AddEdits(s.job.level + 1, s.added)
              || s.Edits()[i] in DeleteEdits(s.job.level, s.job.upper)
              || s.Edits()[i] in DeleteEdits(s.job.level + 1, s.job.lower)
  {
    hide AddEdits, DeleteEdits;
    AddEditsFirst(s.job.level + 1, s.added);
  }

  /** Every edit but the last spares the first output file. */
  lemma PrefixSpares(o: Options, s: State, H: History, job: Job, watermark: nat, m: nat)
    requires Inv(o, s, H) && Releveling.JobOf(s.levels, job)
    requires EngineCompact.JobStep(o, s, job, watermark).added != []
    requires 0 < m < |EngineCompact.JobStep(o, s, job, watermark).Edits()|
    ensures var step := EngineCompact.JobStep(o, s, job, watermark);
            && step.added[0].num == s.nextFile && Spares(step.Edits()[..m], s.nextFile)
            && AddFile(MetaOf(job.level + 1, step.added[0])) in step.Edits()[..m]
  {
    hide *;
    var step := EngineCompact.JobStep(o, s, job, watermark);
    InvIs(o, s, H);
    LiveIs(o, s, H);
    EngineCompact.CompactFields(o, s, job, watermark);
    EngineCompact.JobStepGood(o, s, H, job, watermark);
    CompactedLevels.GoodParts(step);
    CompactedLevels.JobTables(step);
    EngineFlush.SoundFacts(o.fmt, s.files, s.levels, s.nextFile);
    DbFacts.AddedAt(o.fmt, step.added, s.nextFile, step.added[0]);
    FirstNumber(o.fmt, step.added, s.nextFile);
    EditsBegin(step);
    assert step.Edits()[..m][0] == step.Edits()[0];
    forall e | e in step.Edits()[..m] ensures e.AddFile? || (e.DeleteFile? && e.num != s.nextFile) {
      var i :| 0 <= i < m && step.Edits()[i] == e;
      DbFacts.EditOf(job.level + 1, step.added, e);
      DbFacts.EditOf(job.level, job.upper, e);
      DbFacts.EditOf(job.level + 1, job.lower, e);
    }
    SparesIs(step.Edits()[..m], s.nextFile);
  }

  lemma FirstNumber(fmt: Builder.Format, ts: seq<Table>, next: nat)
    requires Releveling.FreshTables(fmt, ts, next) && ts != []
    ensures ts[0].num == next
  {
    hide NewTable;
  }

  lemma SparesIs(es: seq<Edit>, num: nat)
    ensures Spares(es, num) <==> forall e :: e in es ==> e.AddFile? || (e.DeleteFile? && e.num != num)
  {
  }

  /** With all the edits of a compaction logged, or none of them, the disk holds the history. */
  lemma CompactRecovers(o: Options, s: State, H: History, job: Job, watermark: nat, n: nat, torn: bool, m: nat)
    requires Inv(o, s, H) && o.fsync != Never && Releveling.JobOf(s.levels, job)
    requires s.log.Whole() && s.log.durable <= n <= |s.log.recs|
    requires m == 0 || m == |EngineCompact.JobStep(o, s, job, watermark).Edits()|
    ensures 0 <= Flushed(s, H) && Recoverable(o, CompactCut(o, s, job, watermark, n, torn, m), Remaining(s, H, n))
  {
    hide *;
    var step, s' := EngineCompact.JobStep(o, s, job, watermark), CompactJob(o, s, job, watermark);
    var es, d := step.Edits(), CompactCut(o, s, job, watermark, n, torn, m);
    InvIs(o, s, H);
    LoggedIs(s, H);
    EngineCompact.CompactFields(o, s, job, watermark);
    EngineCompact.CompactJobInv(o, s, H, job, watermark);
    CompactCutIs(o, s, job, watermark, n, torn, m);
    EditsIs(d);
    LoggedIs(s', H);
    OnDiskIs(s, H, n);
    OnDiskIs(s', H, n);
    Runs.OldFilesAre(s, s.files);
    Runs.CrashInCompaction(o, s, H, job, watermark, n, torn, s.files, {});
    NothingGone(step.NewFiles());
    assert s.edits + es[..0] == s.edits && es[..|es|] == es;
    if m == 0 { CrashRecovers(o, s, H, n, d); } else { CrashRecovers(o, s', H, n, d); }
  }

  /** What the edits before the cut replay to, and the state opened from it. */
  lemma CutOpened(o: Options, s: State, H: History, job: Job, watermark: nat, n: nat, torn: bool, m: nat)
    requires Inv(o, s, H) && Releveling.JobOf(s.levels, job) && n <= |s.log.recs|
    requires m < |EngineCompact.JobStep(o, s, job, watermark).Edits()|
    ensures var step, c := EngineCompact.JobStep(o, s, job, watermark), Replay(s.edits);
            var d := CompactCut(o, s, job, watermark, n, torn, m);
            && Replay(d.Edits()) == CutLevels.CutCatalog(step, c, m) && d.Log() == s.log.recs[..n]
            && Replay(d.Edits()).nextFileNum == c.nextFileNum && Replay(d.Edits()).lastSeq == c.lastSeq
            && Open(o, d).levels == CutLevels.CutLevelsOf(step, c, m)
            && Open(o, d).mem == MemTables.InsertedAll([], s.log.recs[..n]) && Open(o, d).imms == []
            && Open(o, d).nextSeq == MaxSeqFrom(c.lastSeq, s.log.recs[..n])
  {
    hide *;
    var step, c := EngineCompact.JobStep(o, s, job, watermark), Replay(s.edits);
    var d := CompactCut(o, s, job, watermark, n, torn, m);
    InvIs(o, s, H);
    LiveIs(o, s, H);
    EngineCompact.CompactFields(o, s, job, watermark);
    CompactCutIs(o, s, job, watermark, n, torn, m);
    EditsIs(d);
    EngineCompact.ReplaySplit(s.edits, step.Edits()[..m]);
    CutLevels.CutIs(step, c, m);
    CutLevels.CutMembers(step, c, m, FileMeta(0, 0, [], [], 0));
    CutLevels.CutLevelsIs(step, c, m);
    OpenFields(o, d);
  }

  /** The counter is behind inside the edits exactly when there is an output file. */
  lemma CutBehind(o: Options, s: State, H: History, job: Job, watermark: nat, n: nat, torn: bool, m: nat)
    requires Inv(o, s, H) && Releveling.JobOf(s.levels, job) && n <= |s.log.recs|
    requires 0 < m < |EngineCompact.JobStep(o, s, job, watermark).Edits()|
    ensures Behind(CompactCut(o, s, job, watermark, n, torn, m)) <==> EngineCompact.JobStep(o, s, job, watermark).added != []
  {
    hide *;
    var step, c := EngineCompact.JobStep(o, s, job, watermark), Replay(s.edits);
    var d := CompactCut(o, s, job, watermark, n, torn, m);
    InvIs(o, s, H);
    LiveIs(o, s, H);
    CataloguedIs(s);
    CutOpened(o, s, H, job, watermark, n, torn, m);
    CutLevels.CutIs(step, c, m);
    BehindIs(d);
    if step.added != [] {
      var meta := MetaOf(job.level + 1, step.added[0]);
      PrefixSpares(o, s, H, job, watermark, m);
      EngineFlush.MetaOfFields(job.level + 1, step.added[0]);
      SparedStays(c, step.Edits()[..m], meta);
    } else {
      forall x | x in Replay(d.Edits()).files ensures x.num < s.nextFile {
        CutLevels.CutMembers(step, c, m, x);
        NothingAdded(step, c.files, m, x);
        ListedBelow(o.fmt, s.files, c.files, s.levels, s.nextFile, x);
      }
    }
  }

  lemma NothingAdded(step: CompactedLevels.Step, metas: seq<FileMeta>, m: nat, x: FileMeta)
    requires step.added == [] && Releveling.AfterCompact(metas, CutLevels.CutJob(step, m), CutLevels.CutAdded(step, m), x)
    ensures x in metas
  {
  }

  /** A key the opened database reads wrong: neither the log nor the levels down to the job's have
      it any more, and the level below finds a lower input that is still listed. */
  ghost predicate StaleKey(o: Options, s: State, job: Job, watermark: nat, n: nat, torn: bool, m: nat, k: bytes)
    requires n <= |s.log.recs| && m <= |EngineCompact.JobStep(o, s, job, watermark).Edits()|
  {
    && (forall r :: r in s.log.recs[..n] ==> r.ik.userKey != k)
    && CutReads.Stale(EngineCompact.JobStep(o, s, job, watermark),
                      Open(o, CompactCut(o, s, job, watermark, n, torn, m)).levels, k)
  }

  lemma StaleKeyIs(o: Options, s: State, job: Job, watermark: nat, n: nat, torn: bool, m: nat, k: bytes)
    requires n <= |s.log.recs| && m <= |EngineCompact.JobStep(o, s, job, watermark).Edits()|
    ensures StaleKey(o, s, job, watermark, n, torn, m, k) <==>
            && (forall r :: r in s.log.recs[..n] ==> r.ik.userKey != k)
            && CutReads.Stale(EngineCompact.JobStep(o, s, job, watermark),
                              Open(o, CompactCut(o, s, job, watermark, n, torn, m)).levels, k)
  {
    hide CutReads.Stale, Open, CompactCut, EngineCompact.JobStep;
  }

  /** A compaction logs its output files, the deletions and the file counter. Wherever it is cut,
      the database opened afterwards reads a key as its last write unless the key is stale, and
      then it reads an older version or nothing. The counter is behind at every inner cut, if
      there is an output file. */
  lemma TornCompactLog(o: Options, s: State, H: History, job: Job, watermark: nat, n: nat, torn: bool, m: nat)
    requires Inv(o, s, H) && o.fsync != Never && Releveling.JobOf(s.levels, job)
    requires s.log.Whole() && s.log.durable <= n <= |s.log.recs|
    requires m <= |EngineCompact.JobStep(o, s, job, watermark).Edits()|
    ensures 0 <= Flushed(s, H)
    ensures var s' := Open(o, CompactCut(o, s, job, watermark, n, torn, m));
            var last := |EngineCompact.JobStep(o, s, job, watermark).Edits()|;
            forall k, maxSeq :: s'.nextSeq <= maxSeq ==>
              CutReads.Answers(m < last && StaleKey(o, s, job, watermark, n, torn, m, k), Found(o, s', k, maxSeq),
                               LastWrite(Remaining(s, H, n), k))
    ensures Behind(CompactCut(o, s, job, watermark, n, torn, m)) <==>
            && EngineCompact.JobStep(o, s, job, watermark).added != []
            && 0 < m < |EngineCompact.JobStep(o, s, job, watermark).Edits()|
    ensures m == 0 || m == |EngineCompact.JobStep(o, s, job, watermark).Edits()| ==>
              Recoverable(o, CompactCut(o, s, job, watermark, n, torn, m), Remaining(s, H, n))
  {
    hide *;
    var d, last := CompactCut(o, s, job, watermark, n, torn, m), |EngineCompact.JobStep(o, s, job, watermark).Edits()|;
    InvIs(o, s, H);
    LoggedIs(s, H);
    var H', s' := Remaining(s, H, n), Open(o, d);
    if m == 0 || m == last {
      CompactRecovers(o, s, H, job, watermark, n, torn, m);
      RecoveredReads(o, d, H');
      ReadsAllIs(o, d, H');
    } else {
      CutBehind(o, s, H, job, watermark, n, torn, m);
    }
    forall k, maxSeq | s'.nextSeq <= maxSeq
      ensures CutReads.Answers(m < last && StaleKey(o, s, job, watermark, n, torn, m, k), Found(o, s', k, maxSeq),
                               LastWrite(H', k)) {
      CutReads.AnswersIs(m < last && StaleKey(o, s, job, watermark, n, torn, m, k), Found(o, s', k, maxSeq), LastWrite(H', k));
      if m < last { CutFound(o, s, H, job, watermark, n, torn, m, k, maxSeq); }
    }
  }

  /** One read after a cut. */
  lemma CutFound(o: Options, s: State, H: History, job: Job, watermark: nat, n: nat, torn: bool, m: nat, k: bytes, maxSeq: nat)
    requires Inv(o, s, H) && o.fsync != Never && Releveling.JobOf(s.levels, job)
    requires s.log.Whole() && s.log.durable <= n <= |s.log.recs|
    requires m < |EngineCompact.JobStep(o, s, job, watermark).Edits()|
    requires Open(o, CompactCut(o, s, job, watermark, n, torn, m)).nextSeq <= maxSeq
    ensures 0 <= Flushed(s, H)
    ensures CutReads.Answers(StaleKey(o, s, job, watermark, n, torn, m, k),
                             Found(o, Open(o, CompactCut(o, s, job, watermark, n, torn, m)), k, maxSeq),
                             LastWrite(Remaining(s, H, n), k))
  {
    hide *;
    var step, c := EngineCompact.JobStep(o, s, job, watermark), Replay(s.edits);
    var d0, d := CompactCut(o, s, job, watermark, n, torn, 0), CompactCut(o, s, job, watermark, n, torn, m);
    var s0, s' := Open(o, d0), Open(o, d);
    CompactRecovers(o, s, H, job, watermark, n, torn, 0);
    var H' := Remaining(s, H, n);
    CutOpened(o, s, H, job, watermark, n, torn, 0);
    CutOpened(o, s, H, job, watermark, n, torn, m);
    OpenInv(o, d0, H');
    InMemoryIs(s0);
    InMemoryIs(s');
    CutStart(o, s, H, job, watermark, n, torn);
    CutReady(o, s, H, s0, H', job, watermark, maxSeq);
    CataloguedIs(s);
    InvIs(o, s, H);
    EngineCompact.CompactFields(o, s, job, watermark);
    CutReads.CutReadsAll(step, c, watermark, m, k, maxSeq);
    FoundIs(o, s0, k, maxSeq);
    FoundIs(o, s', k, maxSeq);
    StaleKeyIs(o, s, job, watermark, n, torn, m, k);
    MemoryHas(o, d0, H', k, maxSeq);
    FoundLast(o, s0, H', k, maxSeq);
    var stale := StaleKey(o, s, job, watermark, n, torn, m, k);
    CutReads.AnswersIs(stale, Found(o, s', k, maxSeq), LastWrite(H', k));
    var a, b := Probes.ReadFrom(o.fmt, s'.levels, 0, k, maxSeq), Probes.ReadFrom(o.fmt, s0.levels, 0, k, maxSeq);
    CutReads.AnswersIs(CutReads.Stale(step, s'.levels, k), a, b);
  }

  /** Nothing logged, nothing changed. */
  lemma CutStart(o: Options, s: State, H: History, job: Job, watermark: nat, n: nat, torn: bool)
    requires Inv(o, s, H) && o.fsync != Never && Releveling.JobOf(s.levels, job)
    requires s.log.Whole() && s.log.durable <= n <= |s.log.recs|
    ensures Open(o, CompactCut(o, s, job, watermark, n, torn, 0)).levels == s.levels
  {
    hide *;
    var step, d := EngineCompact.JobStep(o, s, job, watermark), CompactCut(o, s, job, watermark, n, torn, 0);
    InvIs(o, s, H);
    CompactCutIs(o, s, job, watermark, n, torn, 0);
    assert s.edits + step.Edits()[..0] == s.edits;
    Runs.OldFilesAre(s, s.files);
    Runs.CrashInCompaction(o, s, H, job, watermark, n, torn, s.files, {});
    ImageIs(s, n, d);
    ImageLevels(o, s, H, d);
    OpenFields(o, d);
  }

  lemma CutReady(o: Options, s: State, H: History, s0: State, H0: History, job: Job, watermark: nat, maxSeq: nat)
    requires Inv(o, s, H) && Inv(o, s0, H0) && s0.levels == s.levels && s0.nextSeq <= maxSeq
    requires Releveling.JobOf(s.levels, job)
    ensures CutReads.Ready(EngineCompact.JobStep(o, s, job, watermark), watermark, maxSeq)
  {
    hide *;
    var step := EngineCompact.JobStep(o, s, job, watermark);
    InvIs(o, s, H);
    InvIs(o, s0, H0);
    LiveIs(o, s0, H0);
    EngineCompact.CompactFields(o, s, job, watermark);
    EngineCompact.JobStepGood(o, s, H, job, watermark);
    Snapshots.ReadIsNewest(o, s0, H0, [], maxSeq);
    var a, b, none: seq<Source> := InMemory(s0), TableSources(s0.levels), [];
    assert none + a + b == a + b && none + b == b;
    OrderedDrop(none, a, b);
    UnionSplit(a, b);
    SubsetUnique(Union(b), Union(a + b));
    FaithfulIs(AllSources(s0), H0);
    forall r | r in Union(b) ensures r.ik.seqno <= maxSeq { ContentsHas(H0, r); }
    CutReads.ReadyIs(step, watermark, maxSeq);
  }

  /** The opened memtable answers exactly for the keys in the log. */
  lemma MemoryHas(o: Options, d: Disk, H: History, k: bytes, maxSeq: nat)
    requires Recoverable(o, d, H) && Open(o, d).nextSeq <= maxSeq
    ensures FirstHit(InMemory(Open(o, d)), k, maxSeq) == None <==> forall r :: r in d.Log() ==> r.ik.userKey != k
  {
    hide *;
    var s, w := Open(o, d), d.Log();
    RecoverableIs(o, d, H);
    OpenFields(o, d);
    IncreasingDrop(H, |H| - |w|);
    ReplayedMem(w);
    MaxSeqBounds(Replay(d.Edits()).lastSeq, w);
    InMemoryIs(s);
    EngineFlush.NoFrozen();
    var none: seq<Source> := [];
    assert [Contents(s.mem)] + none == [Contents(s.mem)];
    Probes.OneHit(Contents(s.mem), k, maxSeq);
    Probes.NewestSilent(Contents(s.mem), k, maxSeq);
    forall r | r in w ensures r in Contents(w) && (Visible(r, k, maxSeq) <==> r.ik.userKey == k) {
      ContentsHas(w, r);
      CutReads.VisibleIs(r, k, maxSeq);
    }
    forall r | r in Contents(w) ensures r in w { ContentsHas(w, r); }
  }

  /** A read that finds anything finds the last write. */
  lemma FoundLast(o: Options, s: State, H: History, k: bytes, maxSeq: nat)
    requires Inv(o, s, H) && s.nextSeq <= maxSeq
    ensures Found(o, s, k, maxSeq).Some? ==> Found(o, s, k, maxSeq) == LastWrite(H, k)
    ensures ValueOf(Found(o, s, k, maxSeq)) == ValueOf(LastWrite(H, k))
  {
    hide *;
    FoundIs(o, s, k, maxSeq);
    Runs.ProbesAllSources(o, s, H, k, maxSeq);
    Runs.ReadsLastWrite(o, s, H, k, maxSeq);
    Snapshots.ReadIsNewest(o, s, H, k, maxSeq);
    InvIs(o, s, H);
    LiveIs(o, s, H);
    LastIsFound(AllSources(s), H, k, maxSeq);
  }

  lemma LastIsFound(ss: seq<Source>, H: History, k: bytes, maxSeq: nat)
    requires Increasing(H) && Faithful(ss, H) && forall r :: r in H ==> r.ik.seqno <= maxSeq
    ensures Newest(Union(ss), k, maxSeq).Some? ==> Newest(Union(ss), k, maxSeq) == LastWrite(H, k)
  {
    hide Increasing, LastWrite, Ordered;
    var x := Newest(Union(ss), k, maxSeq);
    IncreasingUnique(H);
    LastWriteIsNewest(H, k);
    if x.Some? {
      assert Covers(Union(ss), H, k);
      assert Visible(x.value, k, maxSeq) && x.value in Contents(H);
    }
  }

  // ---------------------------------------------------------------- cuts without stale keys

  /** As long as nothing was deleted, once all inputs were, or if there are no lower inputs, no key
      is stale: the database reads all of the history. */
  lemma TornAtEnds(o: Options, s: State, H: History, job: Job, watermark: nat, n: nat, torn: bool, m: nat)
    requires Inv(o, s, H) && o.fsync != Never && Releveling.JobOf(s.levels, job)
    requires s.log.Whole() && s.log.durable <= n <= |s.log.recs|
    requires m <= |EngineCompact.JobStep(o, s, job, watermark).Edits()|
    requires || m <= |EngineCompact.JobStep(o, s, job, watermark).added|
             || m + 1 >= |EngineCompact.JobStep(o, s, job, watermark).Edits()| || job.lower == []
    ensures 0 <= Flushed(s, H) && ReadsAll(o, CompactCut(o, s, job, watermark, n, torn, m), Remaining(s, H, n))
  {
    hide *;
    var step, c := EngineCompact.JobStep(o, s, job, watermark), Replay(s.edits);
    var d := CompactCut(o, s, job, watermark, n, torn, m);
    var last := |step.Edits()|;
    TornCompactLog(o, s, H, job, watermark, n, torn, m);
    var H', s' := Remaining(s, H, n), Open(o, d);
    InvIs(o, s, H);
    CataloguedIs(s);
    EngineCompact.CompactFields(o, s, job, watermark);
    EngineCompact.JobStepGood(o, s, H, job, watermark);
    if m < last { CutOpened(o, s, H, job, watermark, n, torn, m); }
    forall k, maxSeq | s'.nextSeq <= maxSeq ensures ValueOf(Found(o, s', k, maxSeq)) == ValueOf(LastWrite(H', k)) {
      if m < last {
        StaleKeyIs(o, s, job, watermark, n, torn, m, k);
        CutReads.NoneStale(step, c, m, k);
      }
      CutReads.AnswersIs(m < last && StaleKey(o, s, job, watermark, n, torn, m, k), Found(o, s', k, maxSeq), LastWrite(H', k));
    }
    ReadsAllIs(o, d, H');
  }

  lemma NothingGone(files: Files)
    ensures forall job :: {} <= Obsolete(job)
    ensures files - {} == files
  {
  }

  lemma CompactCutIs(o: Options, s: State, job: Job, watermark: nat, n: nat, torn: bool, m: nat)
    requires n <= |s.log.recs| && m <= |EngineCompact.JobStep(o, s, job, watermark).Edits()|
    ensures var step := EngineCompact.JobStep(o, s, job, watermark);
            CompactCut(o, s, job, watermark, n, torn, m)
            == Disk(Some(s.edits + step.Edits()[..m]), Some(s.log.recs[..n]), torn, step.NewFiles())
  {
    hide EngineCompact.JobStep;
  }
}
