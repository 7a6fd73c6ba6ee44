/** What ties the bytes in the directory, the open tables and the cache to the engine's state. */
module DbFacts {
  import opened ByteStrings
  import opened Records
  import opened Builder
  import opened Reader
  import opened WriteAheadLog
  import opened ManifestLog
  import opened Versions
  import opened Sources
  import opened Histories
  import opened EngineOptions
  import opened Compaction
  import opened Engine
  import opened EngineInvariant
  import EngineFlush
  import CompactionSteps
  import CompactedLevels
  import MemTables
  import Releveling
  import Handles
  import Runs
  import Scans
  import EngineCompact

  // ---------------------------------------------------------------- room

  /** A manifest entry names two keys. */
  ghost predicate ShortKey(r: Record) {
    2 * |r.ik.userKey| + 32 < TWO32
  }

  /** The sizes the formats allow: every write fits a log record, its key a manifest entry, and
      every sorted run of writes fits a table file. */
  ghost predicate RoomFor(fmt: Format, H: History) {
    && (forall r :: r in H ==> FitsRecord(r) && ShortKey(r))
    && (forall rs :: Sorted(rs) && Contents(rs) <= Contents(H) ==> FitsTable(fmt, rs))
  }

  lemma RoomRun(fmt: Format, H: History, rs: seq<Record>)
    requires RoomFor(fmt, H) && Sorted(rs) && Contents(rs) <= Contents(H)
    ensures FitsTable(fmt, rs)
  {
    hide FitsTable, FitsRecord, Sorted;
  }

  lemma RoomRecord(fmt: Format, H: History, r: Record)
    requires RoomFor(fmt, H) && r in H
    ensures FitsRecord(r) && ShortKey(r)
  {
    hide FitsTable, FitsRecord, Sorted;
  }

  // ---------------------------------------------------------------- the directory and the open tables

  /** The bytes of the table files, by number. */
  type Dir = map<nat, bytes>

  /** The open table of a table in a version. */
  function HandleOf(fmt: Format, t: Table): SsTable {
    TableOf(fmt, t.recs, t.num, t.smallest, t.largest)
  }

  /** Every file holds its run; every table of the version is open, and its run is on record. */
  ghost predicate FilesHold(fmt: Format, dir: Dir, files: Files, levels: Levels, handles: map<nat, SsTable>,
      runs: Files, next: nat) {
    && (forall n :: n in files ==> n in dir && dir[n] == TableBytes(fmt, files[n]))
    && (forall l: nat, t :: l < |levels| && t in levels[l] ==> Opened(fmt, handles, runs, t))
    && (forall n :: n in runs ==> n < next)
    && Stores(fmt, dir, runs)
  }

  ghost predicate Opened(fmt: Format, handles: map<nat, SsTable>, runs: Files, t: Table) {
    && t.num in runs && runs[t.num] == t.recs
    && t.num in handles && handles[t.num] == HandleOf(fmt, t)
  }

  /** Known runs stay known. */
  ghost predicate Extends(runs: Files, runs': Files) {
    forall n :: n in runs ==> n in runs' && runs'[n] == runs[n]
  }

  lemma FilesHoldIs(fmt: Format, dir: Dir, files: Files, levels: Levels, handles: map<nat, SsTable>, runs: Files,
      next: nat)
    ensures FilesHold(fmt, dir, files, levels, handles, runs, next) <==>
            && (forall n :: n in files ==> n in dir && dir[n] == TableBytes(fmt, files[n]))
            && (forall l: nat, t :: l < |levels| && t in levels[l] ==> Opened(fmt, handles, runs, t))
            && (forall n :: n in runs ==> n < next)
            && Stores(fmt, dir, runs)
  {
  }

  lemma OpenedIs(fmt: Format, handles: map<nat, SsTable>, runs: Files, t: Table)
    ensures Opened(fmt, handles, runs, t) <==>
            t.num in runs && runs[t.num] == t.recs && t.num in handles && handles[t.num] == HandleOf(fmt, t)
  {
  }

  lemma StoresIs(fmt: Format, dir: Dir, runs: Files)
    ensures Stores(fmt, dir, runs) <==> forall n :: n in dir && n in runs ==> dir[n] == TableBytes(fmt, runs[n])
  {
  }

  lemma ExtendsIs(runs: Files, runs': Files)
    ensures Extends(runs, runs') <==> forall n :: n in runs ==> n in runs' && runs'[n] == runs[n]
  {
  }

  lemma CoherentExtends(fmt: Format, blocks: map<(nat, nat), bytes>, runs: Files, runs': Files)
    requires Coherent(fmt, blocks, runs) && Extends(runs, runs')
    ensures Coherent(fmt, blocks, runs')
  {
    hide IsBlockAt;
  }

  /** A table of the version, as `Reader` wants it. */
  lemma TableHeld(o: Options, s: State, H: History, dir: Dir, handles: map<nat, SsTable>, runs: Files, l: nat, t: Table)
    requires Inv(o, s, H) && RoomFor(o.fmt, H) && FilesHold(o.fmt, dir, s.files, s.levels, handles, runs, s.nextFile)
    requires l < |s.levels| && t in s.levels[l]
    ensures t.num in handles && t.num in runs && runs[t.num] == t.recs && t.num in dir
    ensures handles[t.num].num == t.num && handles[t.num] == HandleOf(o.fmt, t)
    ensures Holds(o.fmt, handles[t.num], runs[t.num])
    ensures Contents(t.recs) <= Contents(H)
  {
    hide *;
    FilesHoldIs(o.fmt, dir, s.files, s.levels, handles, runs, s.nextFile);
    OpenedIs(o.fmt, handles, runs, t);
    Handles.LiveFile(o, s, H, l, t);
    TableInHistory(o, s, H, l, t);
    InvIs(o, s, H);
    LiveIs(o, s, H);
    CompactionSteps.SoundParts(o.fmt, s.files, s.levels, s.nextFile);
    Releveling.TableOf(o.fmt, s.files, s.levels, l, t);
    TableFields(o.fmt, s.files, t);
    RoomRun(o.fmt, H, t.recs);
    HoldsIs(o.fmt, t);
  }

  lemma TableFields(fmt: Format, files: Files, t: Table)
    requires WellFormedTable(fmt, files, t)
    ensures t.recs != [] && Sorted(t.recs) && t.smallest == t.recs[0].ik.userKey
        && t.largest == t.recs[|t.recs| - 1].ik.userKey
  {
  }

  lemma HoldsIs(fmt: Format, t: Table)
    requires t.recs != [] && Sorted(t.recs) && t.smallest == t.recs[0].ik.userKey
        && t.largest == t.recs[|t.recs| - 1].ik.userKey
    requires FitsTable(fmt, t.recs)
    ensures HandleOf(fmt, t).num == t.num && Holds(fmt, HandleOf(fmt, t), t.recs)
  {
    hide FitsTable, Sorted, TableBytes, ChunksOf, Index, FilterOf;
  }

  lemma TableInHistory(o: Options, s: State, H: History, l: nat, t: Table)
    requires Inv(o, s, H) && l < |s.levels| && t in s.levels[l]
    ensures Contents(t.recs) <= Contents(H)
  {
    hide *;
    InvIs(o, s, H);
    LiveIs(o, s, H);
    FaithfulIs(AllSources(s), H);
    Runs.AllSourcesIs(s);
    UnionSplit(InMemory(s), TableSources(s.levels));
    forall r | r in Contents(t.recs) ensures r in Contents(H) {
      ContentsHas(t.recs, r);
      InLevelSet(s.levels[l], r);
      Scans.TableSourceMembers(s.levels, r);
    }
  }

  /** Memory, too, holds only parts of the history. */
  lemma MemoryInHistory(o: Options, s: State, H: History)
    requires Inv(o, s, H)
    ensures Contents(s.mem) <= Contents(H) && forall m :: m in s.imms ==> Contents(m) <= Contents(H) && Sorted(m)
    ensures OneWritePerSeq(Contents(H)) && (forall r :: r in H ==> r.ik.seqno <= s.nextSeq)
  {
    hide *;
    InvIs(o, s, H);
    LiveIs(o, s, H);
    LoggedIs(s, H);
    IncreasingUnique(H);
    SuffixContents(H, |H| - |s.log.recs|);
  }

  lemma SuffixContents(H: History, n: nat)
    requires n <= |H|
    ensures Contents(H[n..]) <= Contents(H)
  {
  }

  // ---------------------------------------------------------------- the edits that are logged

  /** As long as file numbers and levels fit their fields, every logged edit does. */
  ghost predicate EditsFit(edits: seq<Edit>, next: nat, maxLevels: nat) {
    next < TWO64 && maxLevels <= TWO32 ==> forall e :: e in edits ==> FitsEdit(e)
  }

  lemma EditsFitMore(edits: seq<Edit>, next: nat, more: seq<Edit>, next': nat, maxLevels: nat)
    requires EditsFit(edits, next, maxLevels) && next <= next' && EditsFit(more, next', maxLevels)
    ensures EditsFit(edits + more, next', maxLevels)
  {
    hide FitsEdit;
  }

  lemma EditsFitIs(edits: seq<Edit>, next: nat, maxLevels: nat)
    ensures EditsFit(edits, next, maxLevels) <==> (next < TWO64 && maxLevels <= TWO32 ==> forall e :: e in edits ==> FitsEdit(e))
  {
  }

  lemma SmallEdits(level: nat, n: nat)
    ensures n < TWO64 ==> FitsEdit(SetNextFileNum(n)) && FitsEdit(SetLastSeq(n))
    ensures n < TWO64 && level < TWO32 ==> FitsEdit(DeleteFile(level, n))
  {
    hide Le;
  }

  lemma BelowTop(n: nat)
    requires n < MemTables.U64_MAX
    ensures n < TWO64
  {
  }

  lemma AddFits(m: FileMeta)
    requires m.num < TWO64 && m.level < TWO32 && m.size < TWO64 && |m.smallest| + |m.largest| + 32 < TWO32
    ensures FitsEdit(AddFile(m))
  {
    AddFields(m);
  }

  /** The entry of a table of the version. */
  lemma LiveEditFits(o: Options, s: State, H: History, l: nat, t: Table)
    requires Inv(o, s, H) && RoomFor(o.fmt, H) && l < |s.levels| && t in s.levels[l]
    requires s.nextFile < TWO64 && o.maxLevels <= TWO32
    ensures FitsEdit(AddFile(MetaOf(l, t))) && t.num < TWO64 && l < TWO32
  {
    hide *;
    InvIs(o, s, H);
    LiveIs(o, s, H);
    EngineFlush.SoundFacts(o.fmt, s.files, s.levels, s.nextFile);
    TableInHistory(o, s, H, l, t);
    TableFields(o.fmt, s.files, t);
    RoomRun(o.fmt, H, t.recs);
    SizeFits(o.fmt, s.files, t);
    forall r | r in t.recs ensures ShortKey(r) {
      ContentsHas(t.recs, r);
      ContentsHas(H, r);
      RoomRecord(o.fmt, H, r);
    }
    ShortKeys(t.recs[0], t.recs[|t.recs| - 1]);
    MetaOfIs(l, t);
    AddFits(MetaOf(l, t));
  }

  lemma SizeFits(fmt: Format, files: Files, t: Table)
    requires WellFormedTable(fmt, files, t) && FitsTable(fmt, t.recs)
    ensures t.size < TWO64
  {
    hide TableBytes, ChunksOf, FilterOf;
  }

  lemma ShortKeys(a: Record, b: Record)
    requires ShortKey(a) && ShortKey(b)
    ensures |a.ik.userKey| + |b.ik.userKey| + 32 < TWO32
  {
  }

  lemma MetaOfIs(l: nat, t: Table)
    ensures MetaOf(l, t) == FileMeta(t.num, l, t.smallest, t.largest, t.size)
  {
  }

  lemma FlushEditsFit(o: Options, s: State, H: History)
    requires Inv(o, s, H) && RoomFor(o.fmt, H) && s.nextSeq < TWO64 && |s.levels| >= 1 && s.imms != []
        && s.imms[0] != []
    ensures EditsFit(FlushEdits(s, NewTable(o.fmt, s.nextFile, s.imms[0])), s.nextFile + 1, o.maxLevels)
  {
    hide *;
    var t, s' := NewTable(o.fmt, s.nextFile, s.imms[0]), FlushOldest(o, s);
    EngineFlush.FlushFields(o, s);
    EngineFlush.FlushOldestInv(o, s, H);
    EngineFlush.WithTopIs(s.levels, t);
    EngineFlush.TopMembers(s.levels, t, 0, t);
    SmallEdits(0, s.nextFile + 1);
    SmallEdits(0, s.nextSeq);
    if s'.nextFile < TWO64 && o.maxLevels <= TWO32 { LiveEditFits(o, s', H, 0, t); }
    EditsFitIs(FlushEdits(s, t), s.nextFile + 1, o.maxLevels);
  }

  lemma {:induction false} EditOf(level: nat, ts: seq<Table>, e: Edit)
    ensures e in AddEdits(level, ts) ==> exists t :: t in ts && e == AddFile(MetaOf(level, t))
    ensures e in DeleteEdits(level, ts) ==> exists t :: t in ts && e == DeleteFile(level, t.num)
  {
    if ts != [] {
      EditOf(level, ts[..|ts| - 1], e);
      assert ts == ts[..|ts| - 1] + [ts[|ts| - 1]];
    }
  }

  lemma CompactEditFits(o: Options, s: State, H: History, job: Job, watermark: nat, e: Edit)
    requires Inv(o, s, H) && RoomFor(o.fmt, H) && Releveling.JobOf(s.levels, job)
    requires e in EngineCompact.JobStep(o, s, job, watermark).Edits()
    requires CompactJob(o, s, job, watermark).nextFile < TWO64 && o.maxLevels <= TWO32
    ensures FitsEdit(e)
  {
    hide *;
    var step, s' := EngineCompact.JobStep(o, s, job, watermark), CompactJob(o, s, job, watermark);
    var l := job.level;
    InvIs(o, s, H);
    LiveIs(o, s, H);
    EngineCompact.CompactFields(o, s, job, watermark);
    EngineCompact.JobStepGood(o, s, H, job, watermark);
    EngineCompact.CompactJobInv(o, s, H, job, watermark);
    CompactedLevels.GoodParts(step);
    CompactedLevels.JobTables(step);
    CompactedLevels.StepParts(step);
    EditsAre(step);
    SmallEdits(l, s'.nextFile);
    EditOf(l + 1, step.added, e);
    EditOf(l, job.upper, e);
    EditOf(l + 1, job.lower, e);
    if t :| t in step.added && e == AddFile(MetaOf(l + 1, t)) {
      CompactedLevels.NewLevelMembers(step, l + 1);
      EngineCompact.StaysIs(step, l + 1, t);
      LiveEditFits(o, s', H, l + 1, t);
    } else if t :| t in job.upper && e == DeleteFile(l, t.num) {
      LiveEditFits(o, s, H, l, t);
      SmallEdits(l, t.num);
    } else if t :| t in job.lower && e == DeleteFile(l + 1, t.num) {
      LiveEditFits(o, s, H, l + 1, t);
      SmallEdits(l + 1, t.num);
    }
  }

  lemma EditsAre(s: CompactedLevels.Step)
    ensures s.Edits() == AddEdits(s.job.level + 1, s.added)
        + (DeleteEdits(s.job.level, s.job.upper) + DeleteEdits(s.job.level + 1, s.job.lower))
        + [SetNextFileNum(s.next + |s.added|)]
  {
    hide AddEdits, DeleteEdits;
  }

  lemma CompactEditsFit(o: Options, s: State, H: History, job: Job, watermark: nat)
    requires Inv(o, s, H) && RoomFor(o.fmt, H) && Releveling.JobOf(s.levels, job)
    ensures EditsFit(EngineCompact.JobStep(o, s, job, watermark).Edits(), CompactJob(o, s, job, watermark).nextFile,
        o.maxLevels)
  {
    hide *;
    var step, s' := EngineCompact.JobStep(o, s, job, watermark), CompactJob(o, s, job, watermark);
    if s'.nextFile < TWO64 && o.maxLevels <= TWO32 {
      forall e | e in step.Edits() ensures FitsEdit(e) { CompactEditFits(o, s, H, job, watermark, e); }
    }
    EditsFitIs(step.Edits(), s'.nextFile, o.maxLevels);
  }

  // ---------------------------------------------------------------- lookups, source by source

  lemma NoHit(k: bytes, maxSeq: nat)
    ensures FirstHit([], k, maxSeq) == None
  {
  }

  lemma NoRuns()
    ensures RunsOf([]) == []
  {
  }

  lemma RunsStep(ts: seq<Table>)
    requires ts != []
    ensures RunsOf(ts) == [Contents(ts[0].recs)] + RunsOf(ts[1..])
  {
  }

  /** Only tables of the version are candidates. */
  lemma CandidateLive(fmt: Format, levels: Levels, k: bytes, t: Table)
    requires t in Candidates(fmt, levels, k)
    ensures exists l: nat :: l < |levels| && t in levels[l]
  {
    hide MayHold, FindInLevel;
    if levels != [] {
      if t in L0Candidates(fmt, levels[0], k) {
        L0CandidateLive(fmt, levels[0], k, t);
      } else {
        DeepCandidateLive(levels[1..], k, t);
        var l :| 0 <= l < |levels[1..]| && t in levels[1..][l];
        assert t in levels[l + 1];
      }
    }
  }

  lemma {:induction false} L0CandidateLive(fmt: Format, ts: seq<Table>, k: bytes, t: Table)
    requires t in L0Candidates(fmt, ts, k)
    ensures t in ts
  {
    hide MayHold;
    if ts != [] && t != ts[|ts| - 1] { L0CandidateLive(fmt, ts[..|ts| - 1], k, t); }
  }

  lemma {:induction false} DeepCandidateLive(levels: Levels, k: bytes, t: Table)
    requires t in DeepCandidates(levels, k)
    ensures exists l: nat :: l < |levels| && t in levels[l]
  {
    hide FindInLevel;
    FoundInLevel(levels[0], k);
    if t in DeepCandidates(levels[1..], k) {
      DeepCandidateLive(levels[1..], k, t);
      var l :| 0 <= l < |levels[1..]| && t in levels[1..][l];
      assert t in levels[l + 1];
    } else {
      assert t in levels[0];
    }
  }

  lemma AnsweredBy(S: Source, T: Source, rest: seq<Source>, k: bytes, maxSeq: nat, a: Option<Record>)
    requires S <= T && OneWritePerSeq(T) && IsAnswer(S, k, maxSeq, a)
    ensures FirstHit([S] + rest, k, maxSeq) == if a.Some? then a else FirstHit(rest, k, maxSeq)
  {
    SubsetUnique(S, T);
    AnswerIsNewest(S, k, maxSeq, a);
    assert ([S] + rest)[1..] == rest;
    hide OneWritePerSeq, IsAnswer, Newest;
  }

  // ---------------------------------------------------------------- a flush on disk

  lemma FlushHolds(fmt: Format, dir: Dir, files: Files, levels: Levels, handles: map<nat, SsTable>, runs: Files,
      next: nat, run: seq<Record>)
    requires FilesHold(fmt, dir, files, levels, handles, runs, next) && |levels| >= 1 && run != []
    ensures var t := NewTable(fmt, next, run);
            FilesHold(fmt, dir[next := TableBytes(fmt, run)], files[next := run], EngineFlush.WithTop(levels, t),
                      handles[next := HandleOf(fmt, t)], runs[next := run], next + 1)
    ensures Extends(runs, runs[next := run])
  {
    hide *;
    var t := NewTable(fmt, next, run);
    var dir', files', v := dir[next := TableBytes(fmt, run)], files[next := run], EngineFlush.WithTop(levels, t);
    var handles', runs' := handles[next := HandleOf(fmt, t)], runs[next := run];
    CompactionSteps.NewTableIs(fmt, next, run);
    EngineFlush.WithTopIs(levels, t);
    FilesHoldIs(fmt, dir, files, levels, handles, runs, next);
    ExtendsIs(runs, runs');
    StoresIs(fmt, dir, runs);
    StoresIs(fmt, dir', runs');
    forall l: nat, u: Table | l < |v| && u in v[l] ensures Opened(fmt, handles', runs', u) {
      EngineFlush.TopMembers(levels, t, l, u);
      OpenedIs(fmt, handles, runs, u);
      OpenedIs(fmt, handles', runs', u);
    }
    FilesHoldIs(fmt, dir', files', v, handles', runs', next + 1);
  }

  // ---------------------------------------------------------------- a compaction on disk

  /** The directory once the output files are written. */
  function DirWith(dir: Dir, ts: seq<Table>, contents: seq<bytes>): Dir
    requires |contents| == |ts|
  {
    if ts == [] then dir
    else DirWith(dir, ts[..|ts| - 1], contents[..|ts| - 1])[ts[|ts| - 1].num := contents[|ts| - 1]]
  }

  ghost predicate BytesOf(fmt: Format, dir: Dir, files: Files) {
    forall n :: n in files ==> n in dir && dir[n] == TableBytes(fmt, files[n])
  }

  lemma BytesOfIs(fmt: Format, dir: Dir, files: Files)
    ensures BytesOf(fmt, dir, files) <==> forall n :: n in files ==> n in dir && dir[n] == TableBytes(fmt, files[n])
  {
  }

  lemma {:induction false} DirWithHolds(fmt: Format, dir: Dir, files: Files, runs: Files, ts: seq<Table>,
      contents: seq<bytes>)
    requires |contents| == |ts| && forall i :: 0 <= i < |ts| ==> contents[i] == TableBytes(fmt, ts[i].recs)
    requires BytesOf(fmt, dir, files) && Stores(fmt, dir, runs)
    ensures BytesOf(fmt, DirWith(dir, ts, contents), Releveling.WithTables(files, ts))
    ensures Stores(fmt, DirWith(dir, ts, contents), Releveling.WithTables(runs, ts))
  {
    if ts != [] {
      hide TableBytes, BytesOf, Stores, DirWith;
      var n := |ts| - 1;
      var d, f, r := DirWith(dir, ts[..n], contents[..n]), Releveling.WithTables(files, ts[..n]),
          Releveling.WithTables(runs, ts[..n]);
      DirWithHolds(fmt, dir, files, runs, ts[..n], contents[..n]);
      OneMore(fmt, d, f, r, ts[n].num, ts[n].recs);
      DirWithStep(dir, ts, contents);
    }
  }

  lemma DirWithStep(dir: Dir, ts: seq<Table>, contents: seq<bytes>)
    requires |contents| == |ts| && ts != []
    ensures DirWith(dir, ts, contents)
        == DirWith(dir, ts[..|ts| - 1], contents[..|ts| - 1])[ts[|ts| - 1].num := contents[|ts| - 1]]
  {
  }

  /** Which files the directory holds once the outputs are written. */
  lemma {:induction false} DirWithAt(fmt: Format, dir: Dir, ts: seq<Table>, contents: seq<bytes>, next: nat, n: nat)
    requires |contents| == |ts| && Releveling.FreshTables(fmt, ts, next)
    ensures n in DirWith(dir, ts, contents) <==> n in dir || next <= n < next + |ts|
    ensures n in dir && !(next <= n < next + |ts|) ==> DirWith(dir, ts, contents)[n] == dir[n]
  {
    hide Releveling.FreshTables;
    if ts != [] {
      hide *;
      var k := |ts| - 1;
      Releveling.FreshFront(fmt, ts, next);
      DirWithAt(fmt, dir, ts[..k], contents[..k], next, n);
      DirWithStep(dir, ts, contents);
    }
  }

  /** The directory after a compaction: its outputs, numbered from `next`, and what was there but the
      inputs, unchanged. */
  ghost predicate DirAfter(dir: Dir, dir': Dir, job: Compaction.Job, next: nat, next': nat) {
    forall n :: FileAfter(dir, dir', job, next, next', n)
  }

  ghost predicate FileAfter(dir: Dir, dir': Dir, job: Compaction.Job, next: nat, next': nat, n: nat) {
    && (n in dir' <==>
          || next <= n < next'
          || (n in dir && forall t :: t in job.upper || t in job.lower ==> t.num != n))
    && (n in dir && n in dir' && !(next <= n < next') ==> dir'[n] == dir[n])
  }

  lemma InputsRemoved(s: CompactedLevels.Step, dir: Dir, contents: seq<bytes>)
    requires s.Good() && |contents| == |s.added|
    ensures DirAfter(dir, DirWith(dir, s.added, contents) - Engine.Obsolete(s.job), s.job, s.next, s.next + |s.added|)
  {
    hide *;
    var dir', next' := DirWith(dir, s.added, contents) - Engine.Obsolete(s.job), s.next + |s.added|;
    forall n: nat ensures FileAfter(dir, dir', s.job, s.next, next', n) { InputGone(s, dir, contents, n); }
    DirAfterIs(dir, dir', s.job, s.next, next');
  }

  lemma InputGone(s: CompactedLevels.Step, dir: Dir, contents: seq<bytes>, n: nat)
    requires s.Good() && |contents| == |s.added|
    ensures FileAfter(dir, DirWith(dir, s.added, contents) - Engine.Obsolete(s.job), s.job, s.next, s.next + |s.added|, n)
  {
    hide *;
    var written, gone := DirWith(dir, s.added, contents), Engine.Obsolete(s.job);
    CompactedLevels.GoodParts(s);
    CompactedLevels.JobTables(s);
    DirWithAt(s.fmt, dir, s.added, contents, s.next, n);
    EngineCompact.ObsoleteIs(s.job, n);
    forall t | t in s.job.upper || t in s.job.lower ensures t.num < s.next {
      CompactedLevels.KeptTable(s, if t in s.job.upper then s.job.level else s.job.level + 1, t);
    }
    assert n in written - gone <==> n in written && n !in gone;
    FileAfterIs(dir, written - gone, s.job, s.next, s.next + |s.added|, n);
  }

  lemma FileAfterIs(dir: Dir, dir': Dir, job: Compaction.Job, next: nat, next': nat, n: nat)
    ensures FileAfter(dir, dir', job, next, next', n) <==>
            && (n in dir' <==>
                  || next <= n < next'
                  || (n in dir && forall t :: t in job.upper || t in job.lower ==> t.num != n))
            && (n in dir && n in dir' && !(next <= n < next') ==> dir'[n] == dir[n])
  {
  }

  lemma DirAfterIs(dir: Dir, dir': Dir, job: Compaction.Job, next: nat, next': nat)
    ensures DirAfter(dir, dir', job, next, next') <==> forall n :: FileAfter(dir, dir', job, next, next', n)
  {
    hide FileAfter;
  }

  lemma OneMore(fmt: Format, dir: Dir, files: Files, runs: Files, n: nat, run: seq<Record>)
    requires BytesOf(fmt, dir, files) && Stores(fmt, dir, runs)
    ensures BytesOf(fmt, dir[n := TableBytes(fmt, run)], files[n := run])
    ensures Stores(fmt, dir[n := TableBytes(fmt, run)], runs[n := run])
  {
    hide TableBytes;
  }

  /** Files that only disappear leave the rest as it was. */
  lemma BytesWithout(fmt: Format, dir: Dir, files: Files, runs: Files, gone: set<nat>)
    requires BytesOf(fmt, dir, files) && Stores(fmt, dir, runs)
    ensures BytesOf(fmt, dir - gone, files - gone) && Stores(fmt, dir - gone, runs)
  {
    hide TableBytes;
  }

  // ---------------------------------------------------------------- opening the listed tables

  /** The listed files are there and fit: what opening them one by one needs. */
  ghost predicate Listable(fmt: Format, dir: Dir, files: Files, metas: seq<FileMeta>) {
    DistinctNums(metas) && forall m :: m in metas ==> ListedFile(fmt, dir, files, m)
  }

  ghost predicate ListedFile(fmt: Format, dir: Dir, files: Files, m: FileMeta) {
    m.num in files && m.num in dir && dir[m.num] == TableBytes(fmt, files[m.num]) && FitsTable(fmt, files[m.num])
  }

  /** `handles` has the open table of `m`. */
  ghost predicate HandleFor(fmt: Format, files: Files, handles: map<nat, SsTable>, m: FileMeta) {
    m.num in files && m.num in handles && handles[m.num] == HandleOf(fmt, OpenTable(fmt, files, m))
  }

  lemma HandleForIs(fmt: Format, files: Files, handles: map<nat, SsTable>, m: FileMeta)
    ensures HandleFor(fmt, files, handles, m) <==>
            m.num in files && m.num in handles && handles[m.num] == HandleOf(fmt, OpenTable(fmt, files, m))
  {
  }

  /** A listed file whose bytes do not open. */
  ghost predicate BadFile(dir: Dir, m: FileMeta) {
    m.num in dir && Reader.Open(dir[m.num], m.num, m.smallest, m.largest).Corrupt?
  }

  /** The part of `from_metas` that opens files; a listed file that is missing is skipped. */
  method OpenListed(ghost fmt: Format, dir: Dir, ghost files: Files, metas: seq<FileMeta>)
    returns (handles: Option<map<nat, SsTable>>)
    ensures handles.None? <==> exists m :: m in metas && BadFile(dir, m)
    ensures Listable(fmt, dir, files, metas) ==>
              handles.Some? && forall m :: m in metas ==> HandleFor(fmt, files, handles.value, m)
  {
    hide *;
    var hs: map<nat, SsTable> := map[];
    for i := 0 to |metas|
      invariant forall j :: 0 <= j < i ==> !BadFile(dir, metas[j])
      invariant Listable(fmt, dir, files, metas) ==> forall j :: 0 <= j < i ==> HandleFor(fmt, files, hs, metas[j])
    {
      var m := metas[i];
      assert m in metas;
      BadFileIs(dir, m);
      if m.num in dir {
        var h := Reader.Open(dir[m.num], m.num, m.smallest, m.largest);
        if Listable(fmt, dir, files, metas) { ListedOpens(fmt, dir, files, metas, m); }
        if h.Corrupt? { return None; }
        if Listable(fmt, dir, files, metas) { KeepHandles(fmt, dir, files, metas, i, hs, h.value); }
        hs := hs[m.num := h.value];
      } else if Listable(fmt, dir, files, metas) {
        ListedOpens(fmt, dir, files, metas, m);
      }
    }
    return Some(hs);
  }

  lemma BadFileIs(dir: Dir, m: FileMeta)
    ensures BadFile(dir, m) <==> m.num in dir && Reader.Open(dir[m.num], m.num, m.smallest, m.largest).Corrupt?
  {
  }

  lemma ListedOpens(fmt: Format, dir: Dir, files: Files, metas: seq<FileMeta>, m: FileMeta)
    requires Listable(fmt, dir, files, metas) && m in metas
    ensures m.num in dir && m.num in files
    ensures Reader.Open(dir[m.num], m.num, m.smallest, m.largest) == Ok(HandleOf(fmt, OpenTable(fmt, files, m)))
  {
    hide DistinctNums, TableBytes, FitsTable, SizeOf, Reader.Open, TableOf;
    assert ListedFile(fmt, dir, files, m);
    OpenBuilt(fmt, files[m.num], m.num, m.smallest, m.largest);
  }

  lemma KeepHandles(fmt: Format, dir: Dir, files: Files, metas: seq<FileMeta>, i: nat, hs: map<nat, SsTable>,
      h: SsTable)
    requires Listable(fmt, dir, files, metas) && i < |metas| && forall j :: 0 <= j < i ==> HandleFor(fmt, files, hs, metas[j])
    requires metas[i].num in files && h == HandleOf(fmt, OpenTable(fmt, files, metas[i]))
    ensures forall j :: 0 <= j <= i ==> HandleFor(fmt, files, hs[metas[i].num := h], metas[j])
  {
    hide HandleOf, OpenTable, ListedFile;
  }

  /** A version's own catalog can be opened from its own files. */
  lemma VersionListable(o: Options, s: State, H: History, dir: Dir, metas: seq<FileMeta>)
    requires Inv(o, s, H) && RoomFor(o.fmt, H) && SameFiles(metas, s.levels) && BytesOf(o.fmt, dir, s.files)
    ensures Listable(o.fmt, dir, s.files, metas)
  {
    hide *;
    EngineFlush.SameFilesParts(metas, s.levels);
    BytesOfIs(o.fmt, dir, s.files);
    forall m | m in metas ensures ListedFile(o.fmt, dir, s.files, m) {
      CompactedLevels.HasMetaIs(s.levels, m);
      var t :| t in s.levels[m.level] && m == MetaOf(m.level, t);
      EngineFlush.MetaOfFields(m.level, t);
      Handles.LiveFile(o, s, H, m.level, t);
      TableInHistory(o, s, H, m.level, t);
      Scans.LiveSorted(o, s, H, m.level, t) by { InvIs(o, s, H); }
      RoomRun(o.fmt, H, t.recs);
      ListedFileIs(o.fmt, dir, s.files, m);
    }
    ListableIs(o.fmt, dir, s.files, metas);
  }

  lemma ListedFileIs(fmt: Format, dir: Dir, files: Files, m: FileMeta)
    ensures ListedFile(fmt, dir, files, m) <==>
            m.num in files && m.num in dir && dir[m.num] == TableBytes(fmt, files[m.num])
                && FitsTable(fmt, files[m.num])
  {
  }

  lemma ListableIs(fmt: Format, dir: Dir, files: Files, metas: seq<FileMeta>)
    requires DistinctNums(metas) && forall m :: m in metas ==> ListedFile(fmt, dir, files, m)
    ensures Listable(fmt, dir, files, metas)
  {
  }

  /** The handles opened from a version's catalog are those of its tables. */
  lemma VersionOpened(o: Options, s: State, H: History, metas: seq<FileMeta>, handles: map<nat, SsTable>,
      runs: Files, l: nat, t: Table)
    requires Inv(o, s, H) && SameFiles(metas, s.levels) && l < |s.levels| && t in s.levels[l]
    requires forall m :: m in metas ==> HandleFor(o.fmt, s.files, handles, m)
    requires t.num in runs && runs[t.num] == t.recs
    ensures Opened(o.fmt, handles, runs, t)
  {
    hide *;
    var m := MetaOf(l, t);
    EngineFlush.SameFilesParts(metas, s.levels);
    CompactedLevels.HasMetaIs(s.levels, m);
    EngineFlush.MetaOfFields(l, t);
    HandleForIs(o.fmt, s.files, handles, m);
    InvIs(o, s, H);
    LiveIs(o, s, H);
    CompactionSteps.SoundParts(o.fmt, s.files, s.levels, s.nextFile);
    ReopenedTable(o.fmt, s.files, s.levels, l, t);
    OpenedIs(o.fmt, handles, runs, t);
  }

  /** After a compaction the directory, the open tables and the runs on record fit the new version. */
  lemma CompactHolds(o: Options, s: State, H: History, job: Job, watermark: nat, dir: Dir,
                     handles: map<nat, SsTable>, runs: Files,
                     contents: seq<bytes>, metas: seq<FileMeta>, handles': map<nat, SsTable>)
    requires Inv(o, s, H) && RoomFor(o.fmt, H) && Releveling.JobOf(s.levels, job)
    requires FilesHold(o.fmt, dir, s.files, s.levels, handles, runs, s.nextFile)
    requires var added := EngineCompact.JobStep(o, s, job, watermark).added;
             && |contents| == |added| && (forall i :: 0 <= i < |added| ==> contents[i] == TableBytes(o.fmt, added[i].recs))
    requires var s' := CompactJob(o, s, job, watermark);
             && SameFiles(metas, s'.levels)
             && forall m :: m in metas ==> HandleFor(o.fmt, s'.files, handles', m)
    ensures var s', added := CompactJob(o, s, job, watermark), EngineCompact.JobStep(o, s, job, watermark).added;
            && FilesHold(o.fmt, DirWith(dir, added, contents) - Obsolete(job), s'.files, s'.levels, handles',
                         Releveling.WithTables(runs, added), s'.nextFile)
            && Extends(runs, Releveling.WithTables(runs, added))
  {
    hide *;
    var s', step := CompactJob(o, s, job, watermark), EngineCompact.JobStep(o, s, job, watermark);
    var runs', dir' := Releveling.WithTables(runs, step.added), DirWith(dir, step.added, contents) - Obsolete(job);
    FilesHoldIs(o.fmt, dir, s.files, s.levels, handles, runs, s.nextFile);
    BytesOfIs(o.fmt, dir, s.files);
    InvIs(o, s, H);
    EngineCompact.CompactFields(o, s, job, watermark);
    EngineCompact.JobStepGood(o, s, H, job, watermark);
    EngineCompact.CompactJobInv(o, s, H, job, watermark);
    CompactedLevels.GoodParts(step);
    Runs.NewFilesIs(step);
    DirWithHolds(o.fmt, dir, s.files, runs, step.added, contents);
    BytesWithout(o.fmt, DirWith(dir, step.added, contents), step.NewFiles(), runs', Obsolete(job));
    BytesOfIs(o.fmt, dir', s'.files);
    forall n: nat ensures n in runs' ==> n < s'.nextFile ensures n in runs ==> n in runs' && runs'[n] == runs[n] {
      Releveling.WithTablesAt(o.fmt, runs, step.added, s.nextFile, n);
    }
    ExtendsIs(runs, runs');
    forall l: nat, t: Table | l < |s'.levels| && t in s'.levels[l] ensures Opened(o.fmt, handles', runs', t) {
      CompactRun(o, s, H, job, watermark, handles, runs, l, t);
      VersionOpened(o, s', H, metas, handles', runs', l, t);
    }
    FilesHoldIs(o.fmt, dir', s'.files, s'.levels, handles', runs', s'.nextFile);
  }

  lemma CompactRun(o: Options, s: State, H: History, job: Job, watermark: nat, handles: map<nat, SsTable>,
      runs: Files, l: nat, t: Table)
    requires Inv(o, s, H) && Releveling.JobOf(s.levels, job)
    requires forall k: nat, u :: k < |s.levels| && u in s.levels[k] ==> Opened(o.fmt, handles, runs, u)
    requires forall n :: n in runs ==> n < s.nextFile
    requires l < |CompactJob(o, s, job, watermark).levels| && t in CompactJob(o, s, job, watermark).levels[l]
    ensures var runs' := Releveling.WithTables(runs, EngineCompact.JobStep(o, s, job, watermark).added);
            t.num in runs' && runs'[t.num] == t.recs
  {
    hide *;
    var step := EngineCompact.JobStep(o, s, job, watermark);
    InvIs(o, s, H);
    EngineCompact.CompactFields(o, s, job, watermark);
    EngineCompact.JobStepGood(o, s, H, job, watermark);
    EngineCompact.CompactLength(o, s, job, watermark);
    CompactedLevels.GoodParts(step);
    CompactedLevels.NewLevelMembers(step, l);
    EngineCompact.StaysIs(step, l, t);
    Releveling.WithTablesAt(o.fmt, runs, step.added, s.nextFile, t.num);
    if t in step.added && l == job.level + 1 {
      AddedAt(o.fmt, step.added, s.nextFile, t);
    } else {
      OpenedIs(o.fmt, handles, runs, t);
    }
  }

  lemma AddedAt(fmt: Format, ts: seq<Table>, next: nat, t: Table)
    requires Releveling.FreshTables(fmt, ts, next) && t in ts
    ensures next <= t.num < next + |ts| && ts[t.num - next] == t
  {
    hide NewTable;
    var i :| 0 <= i < |ts| && ts[i] == t;
  }
}
