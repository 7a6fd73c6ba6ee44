/** Runs after which a cut inside a `Manifest::log` call costs the database a value
    (src/db.rs 381-392 and 417-447). */
module CutRuns {
  import opened ByteStrings
  import opened Keys
  import opened Records
  import opened WriteAheadLog
  import opened ManifestLog
  import opened Versions
  import opened Sources
  import opened Histories
  import opened EngineOptions
  import opened Compaction
  import opened Releveling
  import opened CompactedLevels
  import opened CompactionSteps
  import opened Engine
  import opened EngineInvariant
  import opened EngineRecover
  import opened ManifestCrashes
  import opened Snapshots
  import Builder
  import CompactionFaith
  import CutLevels
  import CutReads
  import DbFacts
  import EngineCompact
  import EngineFlush
  import LevelFaith
  import LogCrashes
  import MemTables
  import Probes
  import Runs
  import Scans

  // ---------------------------------------------------------------- tables of one key

  /** A table that holds nothing but writes of `v` under `k`. */
  ghost predicate Only(t: Table, k: bytes, v: bytes) {
    t.recs != [] && forall r :: r in t.recs ==> r.ik.userKey == k && r.ik.kind == Put && r.value == v
  }

  lemma OnlyIs(t: Table, k: bytes, v: bytes)
    ensures Only(t, k, v) <==>
            t.recs != [] && forall r :: r in t.recs ==> r.ik.userKey == k && r.ik.kind == Put && r.value == v
    ensures t.recs != [] ==> t.recs[0] in t.recs
  {
  }

  ghost predicate AllOnly(ts: seq<Table>, k: bytes, v: bytes) {
    forall t :: t in ts ==> Only(t, k, v)
  }

  lemma AllOnlyIs(ts: seq<Table>, k: bytes, v: bytes)
    ensures AllOnly(ts, k, v) <==> forall t :: t in ts ==> Only(t, k, v)
  {
  }

  /** Nothing in memory, nothing in the log; L0 holds `n` tables of `k` with the value `v`. */
  ghost predicate Top(o: Options, s: State, n: nat, k: bytes, v: bytes) {
    && |s.levels| == o.maxLevels >= 2 && s.mem == [] && s.memBytes == 0 && s.imms == []
    && s.log == Log([], 0, 0, None)
    && |s.levels[0]| == n && AllOnly(s.levels[0], k, v)
  }

  lemma TopIs(o: Options, s: State, n: nat, k: bytes, v: bytes)
    ensures Top(o, s, n, k, v) <==>
            && |s.levels| == o.maxLevels >= 2 && s.mem == [] && s.memBytes == 0 && s.imms == []
            && s.log == Log([], 0, 0, None)
            && |s.levels[0]| == n && AllOnly(s.levels[0], k, v)
  {
  }

  ghost predicate LastIs(H: History, k: bytes, v: bytes) {
    LastWrite(H, k).Some? && LastWrite(H, k).value.ik.kind == Put && LastWrite(H, k).value.value == v
  }

  lemma LastIsIs(H: History, k: bytes, v: bytes)
    ensures LastIs(H, k, v) ==> ValueOf(LastWrite(H, k)) == Some(v)
  {
  }

  lemma LastAdded(H: History, r: Record, k: bytes, v: bytes)
    ensures r.ik.userKey == k && r.ik.kind == Put && r.value == v ==> LastIs(H + [r], k, v)
    ensures r.ik.userKey != k && LastIs(H, k, v) ==> LastIs(H + [r], k, v)
  {
    LastWriteStep(H, r, k);
  }

  // ---------------------------------------------------------------- a write in a table of its own

  lemma RecordIs(s: State, k: bytes, v: bytes)
    ensures var r := NewRecord(s, k, v, Put);
            r.ik.userKey == k && r.ik.kind == Put && r.value == v && r.ik.seqno == s.nextSeq + 1
  {
  }

  lemma CanNewLog(o: Options, s: State)
    requires o.Usable() && |s.levels| == o.maxLevels && s.mem == [] && s.imms == [] && Replay(s.edits).lastSeq == s.nextSeq
    ensures Runs.CanHappen(o, s, Runs.NewLog) && Runs.After(o, s, Runs.NewLog) == s.(log := Log([], 0, 0, None))
    ensures forall H :: Runs.Recorded(o, s, H, Runs.NewLog) == H
  {
    hide Replay;
  }

  /** Write and freeze: what is left is to flush. */
  lemma Frozen1(o: Options, files: Files, es: seq<Runs.Event>, s: State, H: History, k: bytes, v: bytes)
    returns (es': seq<Runs.Event>, s': State)
    requires o.Usable() && Leads(o, files, es, s, H) && |s.levels| == o.maxLevels >= 2
    requires s.mem == [] && s.memBytes == 0 && s.imms == [] && s.log == Log([], 0, 0, None)
    requires |s.levels[0]| < 2 * o.l0Trigger && |k| + |v| + 16 < o.memtableBytes
    ensures var r := NewRecord(s, k, v, Put);
            && Leads(o, files, es', s', H + [r])
            && s'.imms == [[r]] && s'.mem == [] && s'.memBytes == 0 && s'.levels == s.levels && s'.nextFile == s.nextFile
            && s'.edits == s.edits && s'.log.recs == [r] && s'.log.torn == None
            && (o.fsync != Never ==> s'.log.durable == 1)
  {
    hide *;
    var e, r := Runs.Event.Write(k, v, Put), NewRecord(s, k, v, Put);
    PlainWrite(o, s, k, v);
    Next(o, files, es, s, H, e);
    var s1 := Runs.After(o, s, e);
    AppendFields(o, s, r);
    LogAppends(o, s, r);
    WrittenFirst(r);
    CanFreeze(o, s1);
    Next(o, files, es + [e], s1, H + [r], Runs.FreezeMem);
    es', s' := es + [e] + [Runs.FreezeMem], Runs.After(o, s1, Runs.FreezeMem);
    FreezeFields(o, s1);
    SyncFields(o, s1);
    LogKept(s.log, o.fsync, r);
    assert [] + [r] == [r] && [] + [[r]] == [[r]];
  }

  lemma LogKept(log: Log, mode: FsyncMode, r: Record)
    ensures log.Append(mode, r).Sync(mode).torn == log.torn
  {
  }

  /** And flush, and start the log afresh: one more table in L0. */
  lemma OneTable(o: Options, files: Files, es: seq<Runs.Event>, s: State, H: History, n: nat, k: bytes, v: bytes)
    returns (es': seq<Runs.Event>, s': State, H': History)
    requires o.Usable() && Leads(o, files, es, s, H) && Top(o, s, n, k, v)
    requires n < o.l0Trigger && |k| + |v| + 16 < o.memtableBytes
    ensures Leads(o, files, es', s', H') && Top(o, s', n + 1, k, v) && s'.levels[1..] == s.levels[1..] && LastIs(H', k, v)
  {
    hide *;
    var r := NewRecord(s, k, v, Put);
    TopIs(o, s, n, k, v);
    RecordIs(s, k, v);
    var es1, s1 := Frozen1(o, files, es, s, H, k, v);
    H' := H + [r];
    CanFlushOne(o, s1);
    Next(o, files, es1, s1, H', Runs.FlushOne);
    var t, s2 := NewTable(o.fmt, s1.nextFile, [r]), FlushOldest(o, s1);
    EngineFlush.FlushFields(o, s1);
    EngineFlush.FlushReplay(s1.edits, MetaOf(0, t), s1.nextFile + 1, s1.nextSeq);
    assert [[r]][1..] == [];
    CanNewLog(o, s2);
    Next(o, files, es1 + [Runs.FlushOne], s2, H', Runs.NewLog);
    es', s' := es1 + [Runs.FlushOne] + [Runs.NewLog], s2.(log := Log([], 0, 0, None));
    EngineFlush.WithTopIs(s1.levels, t);
    OnlyIs(t, k, v);
    AllOnlyIs(s.levels[0], k, v);
    AllOnlyIs(s'.levels[0], k, v);
    LastAdded(H, r, k, v);
    TopIs(o, s', n + 1, k, v);
  }

  /** As many as make a compaction due. */
  lemma {:induction false} Fill(o: Options, files: Files, es: seq<Runs.Event>, s: State, H: History, n: nat, k: bytes, v: bytes)
    returns (es': seq<Runs.Event>, s': State, H': History)
    requires o.Usable() && Leads(o, files, es, s, H) && Top(o, s, n, k, v)
    requires n <= o.l0Trigger && |k| + |v| + 16 < o.memtableBytes && (n == o.l0Trigger ==> LastIs(H, k, v))
    ensures Leads(o, files, es', s', H') && Top(o, s', o.l0Trigger, k, v) && s'.levels[1..] == s.levels[1..] && LastIs(H', k, v)
    decreases o.l0Trigger - n
  {
    hide *;
    es', s', H' := es, s, H;
    if n < o.l0Trigger {
      es', s', H' := OneTable(o, files, es, s, H, n, k, v);
      es', s', H' := Fill(o, files, es', s', H', n + 1, k, v);
    }
  }

  /** A fresh database filled like this. */
  lemma FillFresh(o: Options, files: Files, k: bytes, v: bytes) returns (es: seq<Runs.Event>, s: State, H: History)
    requires o.Usable() && |k| + |v| + 16 < o.memtableBytes
    ensures Leads(o, files, es, s, H) && Top(o, s, o.l0Trigger, k, v) && LastIs(H, k, v)
    ensures forall l :: 0 < l < |s.levels| ==> s.levels[l] == []
  {
    hide *;
    var s0 := Runs.Fresh(o, files);
    FreshFields(o, files);
    LogCrashes.FreshLog(o, files);
    Start(o, files);
    UsableTrigger(o);
    AllOnlyIs(s0.levels[0], k, v);
    TopIs(o, s0, 0, k, v);
    es, s, H := Fill(o, files, [], s0, [], 0, k, v);
    TopIs(o, s, o.l0Trigger, k, v);
    forall l | 0 < l < |s.levels| ensures s.levels[l] == [] { assert s.levels[1..][l - 1] == s0.levels[1..][l - 1]; }
  }

  // ---------------------------------------------------------------- compacting them

  /** All of L0 is picked, with the tables below that it meets. */
  lemma PickAll(o: Options, s: State, watermark: nat)
    requires o.Usable() && |s.levels| == o.maxLevels >= 2 && |s.levels[0]| >= o.l0Trigger
    ensures s.levels[0] != [] && Pick(o, s.levels) == Some(JobFor(s.levels, 0, s.levels[0]))
    ensures JobOf(s.levels, JobFor(s.levels, 0, s.levels[0]))
    ensures var job, e := JobFor(s.levels, 0, s.levels[0]), Runs.CompactOnce(watermark);
            && job.level == 0 && job.upper == s.levels[0] && (forall t :: t in job.lower ==> t in s.levels[1])
            && MaybeCompact(o, s, watermark) == Some(CompactJob(o, s, job, watermark))
            && Runs.CanHappen(o, s, e) && Runs.After(o, s, e) == CompactJob(o, s, job, watermark)
            && forall H :: Runs.Recorded(o, s, H, e) == H
  {
    hide CompactJob, LowKey, HighKey, JobOf, Overlapping;
    PickJob(o, s.levels);
    forall t | t in JobFor(s.levels, 0, s.levels[0]).lower ensures t in s.levels[1] {
      OverlappingMembers(s.levels[1], LowKey(s.levels[0]), HighKey(s.levels[0]), t);
    }
  }

  lemma SetOnly(ts: seq<Table>, k: bytes, v: bytes, r: Record)
    requires AllOnly(ts, k, v) && r in LevelSet(ts)
    ensures r.ik.userKey == k && r.ik.kind == Put && r.value == v
  {
    hide *;
    InLevelSet(ts, r);
    var t :| t in ts && r in t.recs;
    AllOnlyIs(ts, k, v);
    OnlyIs(t, k, v);
  }

  /** What a compaction writes of tables that hold writes of one key alone. */
  lemma AddedOnly(s: Step, watermark: nat, k: bytes)
    requires s.Good() && CompactionFaith.KeepsNewest(InputSet(s.job), LevelSet(s.added), s.job.level + 2 >= |s.levels|, watermark)
    requires forall r :: r in InputSet(s.job) ==> r.ik.userKey == k && r.ik.kind == Put
    ensures s.added != []
    ensures forall t :: t in s.added ==> t.recs != [] && forall r :: r in t.recs ==> r.ik.userKey == k && r in InputSet(s.job)
  {
    hide *;
    GoodParts(s);
    forall t | t in s.added ensures t.recs != [] && forall r :: r in t.recs ==> r.ik.userKey == k && r in InputSet(s.job) {
      AddedTable(s, t);
      TableNonempty(s.fmt, s.NewFiles(), t);
      forall r | r in t.recs ensures r in InputSet(s.job) { InLevelSet(s.added, r); }
    }
    UpperNonempty(s);
    var t := s.job.upper[0];
    JobTables(s);
    TableOf(s.fmt, s.files, s.levels, s.job.level, t);
    TableNonempty(s.fmt, s.files, t);
    var r := t.recs[0];
    InLevelSet(s.job.upper, r);
    InputSetIs(s.job);
    SomePut(InputSet(s.job), LevelSet(s.added), s.job.level + 2 >= |s.levels|, watermark, r);
    InLevelSet(s.added, r);
    var q :| q in LevelSet(s.added);
    InLevelSet(s.added, q);
  }

  lemma SomePut(I: Source, O: Source, lastLevel: bool, watermark: nat, r: Record)
    requires CompactionFaith.KeepsNewest(I, O, lastLevel, watermark) && r in I && forall q :: q in I ==> q.ik.kind == Put
    ensures exists q :: q in O && q.ik.userKey == r.ik.userKey
  {
    assert CompactionFaith.Survives(I, O, lastLevel, watermark, r);
  }

  lemma KeepsIs(s: Step, watermark: nat)
    ensures LevelFaith.Writes(s, watermark) <==>
            CompactionFaith.KeepsNewest(InputSet(s.job), LevelSet(s.added), s.job.level + 2 >= |s.levels|, watermark)
  {
  }

  /** The first compaction moves them all to L1. */
  lemma MovedDown(o: Options, files: Files, es: seq<Runs.Event>, s: State, H: History, k: bytes, v: bytes, watermark: nat)
    returns (es': seq<Runs.Event>, s': State)
    requires o.Usable() && Leads(o, files, es, s, H) && Top(o, s, o.l0Trigger, k, v)
    requires forall l :: 0 < l < |s.levels| ==> s.levels[l] == []
    ensures Leads(o, files, es', s', H)
    ensures Top(o, s', 0, k, v) && s'.levels[1] != [] && AllOnly(s'.levels[1], k, v)
  {
    hide *;
    TopIs(o, s, o.l0Trigger, k, v);
    PickAll(o, s, watermark);
    var job, e := JobFor(s.levels, 0, s.levels[0]), Runs.CompactOnce(watermark);
    Next(o, files, es, s, H, e);
    es', s' := es + [e], CompactJob(o, s, job, watermark);
    var step := EngineCompact.JobStep(o, s, job, watermark);
    LeadsIs(o, files, es, s, H);
    InvIs(o, s, H);
    EngineCompact.CompactFields(o, s, job, watermark);
    EngineCompact.JobStepGood(o, s, H, job, watermark);
    KeepsIs(step, watermark);
    InputSetIs(job);
    NoTables();
    SomeTable(job.lower);
    forall r | r in InputSet(job) ensures r.ik.userKey == k && r.ik.kind == Put && r.value == v { SetOnly(s.levels[0], k, v, r); }
    AddedOnly(step, watermark, k);
    NewLevelMembers(step, 0);
    NewLevelMembers(step, 1);
    forall t ensures t in s'.levels[0] <==> false { EngineCompact.StaysIs(step, 0, t); }
    forall t ensures t in s'.levels[1] <==> t in step.added { EngineCompact.StaysIs(step, 1, t); }
    assert step.added[0] in s'.levels[1];
    forall t | t in s'.levels[1] ensures Only(t, k, v) { OnlyIs(t, k, v); }
    AllOnlyIs(s'.levels[1], k, v);
    AllOnlyIs(s'.levels[0], k, v);
    SomeTable(s'.levels[0]);
    TopIs(o, s', 0, k, v);
  }

  // ---------------------------------------------------------------- an overwritten value comes back

  lemma {:induction false} SortSame(l: nat, ts: seq<Table>)
    requires forall a, b :: a in ts && b in ts ==> !TableLt(l, a, b)
    ensures SortTables(l, ts) == ts
  {
    hide TableLt;
    if ts != [] {
      var front, t := ts[..|ts| - 1], ts[|ts| - 1];
      SortSame(l, front);
      InsertLast(l, t, front);
      assert front + [t] == ts;
    }
  }

  lemma {:induction false} InsertLast(l: nat, t: Table, ts: seq<Table>)
    requires forall u :: u in ts ==> !TableLt(l, t, u)
    ensures InsertTable(l, t, ts) == ts + [t]
  {
    hide TableLt;
    if ts != [] {
      InsertLast(l, t, ts[1..]);
      assert [ts[0]] + (ts[1..] + [t]) == ts + [t];
    }
  }

  lemma {:induction false} OpenedSplit(fmt: Builder.Format, files: Files, a: seq<FileMeta>, b: seq<FileMeta>, l: nat)
    ensures OpenedAt(fmt, files, a + b, l) == OpenedAt(fmt, files, a, l) + OpenedAt(fmt, files, b, l)
  {
    hide OpenTable;
    if b == [] {
      assert a + b == a;
    } else {
      OpenedSplit(fmt, files, a, b[..|b| - 1], l);
      assert (a + b)[..|a + b| - 1] == a + b[..|b| - 1];
    }
  }

  /** Deleting files of another level leaves the tables of this one, in their order. */
  lemma {:induction false} OpenedRetain(fmt: Builder.Format, files: Files, metas: seq<FileMeta>, l: nat, level: nat, num: nat)
    requires l != level
    ensures OpenedAt(fmt, files, Retain(metas, level, num), l) == OpenedAt(fmt, files, metas, l)
  {
    hide OpenedAt;
    if metas != [] {
      var x, rest := metas[0], metas[1..];
      OpenedRetain(fmt, files, rest, l, level, num);
      OpenedSplit(fmt, files, [x], rest, l);
      OpenedSplit(fmt, files, [x], Retain(rest, level, num), l);
      assert [x] + rest == metas;
      if x.level == level && x.num == num {
        OpenedNot(fmt, files, x, l);
        assert OpenedAt(fmt, files, metas, l) == OpenedAt(fmt, files, rest, l);
        assert Retain(metas, level, num) == Retain(rest, level, num);
      }
    }
  }

  lemma OpenedNot(fmt: Builder.Format, files: Files, x: FileMeta, l: nat)
    requires x.level != l
    ensures OpenedAt(fmt, files, [x], l) == []
  {
    assert [x][..0] == [];
  }

  lemma {:induction false} OpenedDeletes(fmt: Builder.Format, files: Files, c: Catalog, l: nat, level: nat, ts: seq<Table>)
    requires l != level
    ensures OpenedAt(fmt, files, ApplyAll(c, DeleteEdits(level, ts)).files, l) == OpenedAt(fmt, files, c.files, l)
  {
    if ts != [] {
      hide OpenedAt;
      var front, t := ts[..|ts| - 1], ts[|ts| - 1];
      OpenedDeletes(fmt, files, c, l, level, front);
      var es := DeleteEdits(level, ts);
      assert es[..|es| - 1] == DeleteEdits(level, front) && es[|es| - 1] == DeleteFile(level, t.num);
      OpenedRetain(fmt, files, ApplyAll(c, DeleteEdits(level, front)).files, l, level, t.num);
    }
  }

  /** With the outputs added and the upper inputs deleted, the level below lists what it did, in the
      same order, and the outputs behind that. */
  lemma CutLower(s: Step, c: Catalog, l: nat)
    requires s.Good() && l == s.job.level + 1
    ensures var m := |s.added| + |s.job.upper|;
            && m < |s.Edits()| && CutLevels.UpsIn(s, m) == |s.job.upper|
            && l < |s.levels|
            && CutLevels.CutLevelsOf(s, c, m)[l]
               == SortTables(l, OpenedAt(s.fmt, s.NewFiles(), c.files, l)
                                + OpenedAt(s.fmt, s.NewFiles(), CollectLevel(l, s.added), l))
  {
    hide *;
    var m := |s.added| + |s.job.upper|;
    GoodParts(s);
    CutLevels.EditCount(s);
    CutPrefix(s, m);
    ApplyAdds(c, l, s.added);
    var c1 := c.(files := c.files + CollectLevel(l, s.added));
    ApplySplit(c, AddEdits(l, s.added), DeleteEdits(s.job.level, s.job.upper));
    OpenedDeletes(s.fmt, s.NewFiles(), c1, l, s.job.level, s.job.upper);
    OpenedSplit(s.fmt, s.NewFiles(), c.files, CollectLevel(l, s.added), l);
    CutLevels.CutIs(s, c, m);
    CutLevels.CutLevelsIs(s, c, m);
    MetasAt(s.fmt, s.NewFiles(), CutLevels.CutCatalog(s, c, m).files, |s.levels|, l);
  }

  lemma CutPrefix(s: Step, m: nat)
    requires m == |s.added| + |s.job.upper| && m < |s.Edits()|
    ensures s.Edits()[..m] == AddEdits(s.job.level + 1, s.added) + DeleteEdits(s.job.level, s.job.upper)
    ensures CutLevels.UpsIn(s, m) == |s.job.upper|
  {
    CutLevels.EditsTake(s, m);
    assert s.added[..|s.added|] == s.added && s.job.upper[..|s.job.upper|] == s.job.upper && s.job.lower[..0] == [];
    hide AddEdits;
    assert DeleteEdits(s.job.level + 1, []) == [];
    hide DeleteEdits, Step.Edits;
    var a, b := AddEdits(s.job.level + 1, s.added), DeleteEdits(s.job.level, s.job.upper);
    assert a + (b + []) == a + b;
  }

  lemma MetasAt(fmt: Builder.Format, files: Files, metas: seq<FileMeta>, maxLevels: nat, l: nat)
    requires l < maxLevels
    ensures FromMetas(fmt, files, metas, maxLevels)[l] == SortTables(l, OpenedAt(fmt, files, metas, l))
  {
    hide SortTables, OpenedAt;
  }

  /** The first table of a level was there before and is the one found. */
  ghost predicate OldFirst(was: seq<Table>, ts: seq<Table>, k: bytes) {
    ts != [] && ts[0] in was && FindInLevel(ts, k) == Some(ts[0])
  }

  lemma OldFirstIs(was: seq<Table>, ts: seq<Table>, k: bytes)
    ensures OldFirst(was, ts, k) <==> ts != [] && ts[0] in was && FindInLevel(ts, k) == Some(ts[0])
  {
    hide FindInLevel;
  }

  /** Every table the lower level then holds starts with the one key. */
  lemma CutHead(s: Step, c: Catalog, k: bytes, v: bytes)
    requires |s.levels| > 1 && s.Good() && SameFiles(c.files, s.levels) && s.job.level == 0 && s.added != []
    requires s.levels[1] != [] && AllOnly(s.levels[1], k, v)
    requires forall t :: t in s.added ==> t.recs != [] && forall r :: r in t.recs ==> r.ik.userKey == k
    ensures |s.added| + |s.job.upper| < |s.Edits()|
    ensures OldFirst(s.levels[1], CutLevels.CutLevelsOf(s, c, |s.added| + |s.job.upper|)[1], k)
  {
    hide *;
    var m := |s.added| + |s.job.upper|;
    GoodParts(s);
    CutLower(s, c, 1);
    var v1 := CutLevels.CutLevelsOf(s, c, m)[1];
    var was, now := OpenedAt(s.fmt, s.NewFiles(), c.files, 1),
        OpenedAt(s.fmt, s.NewFiles(), CollectLevel(1, s.added), 1);
    CutSorted(s, c, k, v, was + now);
    OldOpened(s, c);
    assert v1 == was + now;
    assert (was + now)[0] == was[0];
    OneKey(s, v1[0], k, v);
    FindFirst(v1, k);
    OldFirstIs(s.levels[1], v1, k);
  }

  lemma CutSorted(s: Step, c: Catalog, k: bytes, v: bytes, ts: seq<Table>)
    requires |s.levels| > 1 && s.Good() && SameFiles(c.files, s.levels) && s.job.level == 0 && AllOnly(s.levels[1], k, v)
    requires forall t :: t in s.added ==> t.recs != [] && forall r :: r in t.recs ==> r.ik.userKey == k
    requires |s.added| + |s.job.upper| < |s.Edits()|
    requires CutLevels.CutLevelsOf(s, c, |s.added| + |s.job.upper|)[1] == SortTables(1, ts)
    ensures SortTables(1, ts) == ts
  {
    hide *;
    var m := |s.added| + |s.job.upper|;
    CutLevels.CutLevel(s, c, m, 1);
    CutLevels.CutParts(s, m);
    forall t: Table | t in ts ensures t.smallest == k && t.largest == k {
      SortTablesMembers(1, ts, t);
      CutLevels.CutStaysIs(s, m, 1, t);
      OneKey(s, t, k, v);
    }
    forall a: Table, b: Table | a in ts && b in ts ensures !TableLt(1, a, b) { NotBelow(a, b); }
    SortSame(1, ts);
  }

  lemma OneKey(s: Step, t: Table, k: bytes, v: bytes)
    requires |s.levels| > 1 && s.Good() && AllOnly(s.levels[1], k, v) && (t in s.levels[1] || t in s.added)
    requires t in s.added ==> t.recs != [] && forall r :: r in t.recs ==> r.ik.userKey == k
    ensures t.smallest == k && t.largest == k
  {
    hide *;
    GoodParts(s);
    AllOnlyIs(s.levels[1], k, v);
    OnlyIs(t, k, v);
    if t in s.levels[1] { KeptTable(s, 1, t); } else { AddedTable(s, t); }
    BoundsAre(s.fmt, s.NewFiles(), t);
  }

  lemma BoundsAre(fmt: Builder.Format, files: Files, t: Table)
    requires WellFormedTable(fmt, files, t)
    ensures t.recs != [] && t.smallest == t.recs[0].ik.userKey && t.largest == t.recs[|t.recs| - 1].ik.userKey
  {
  }

  lemma NotBelow(a: Table, b: Table)
    requires a.smallest == b.smallest
    ensures !TableLt(1, a, b)
  {
    if Lt(a.smallest, b.smallest) { LtAsym(a.smallest, b.smallest); }
  }

  lemma FindFirst(ts: seq<Table>, k: bytes)
    requires ts != [] && ts[0].smallest == k && ts[0].largest == k
    ensures FindInLevel(ts, k) == Some(ts[0])
  {
    LeqAnti(k, k);
    if Lt(k, k) { LtAsym(k, k); }
  }

  /** The files listed at the lower level open as its tables. */
  lemma OldOpened(s: Step, c: Catalog)
    requires |s.levels| > 1 && s.Good() && SameFiles(c.files, s.levels) && s.job.level == 0 && s.levels[1] != []
    ensures var was := OpenedAt(s.fmt, s.NewFiles(), c.files, 1); was != [] && was[0] in s.levels[1]
  {
    hide *;
    GoodParts(s);
    EngineFlush.SameFilesParts(c.files, s.levels);
    var was := OpenedAt(s.fmt, s.NewFiles(), c.files, 1);
    forall t | t in was ensures t in s.levels[1] { OpenedOld(s, c, t); }
    var u := s.levels[1][0];
    KeptTable(s, 1, u);
    EngineFlush.MetaOfFields(1, u);
    HasMetaIs(s.levels, MetaOf(1, u));
    ListedIs(s.NewFiles(), c.files, 1, MetaOf(1, u));
    OpenedMembers(s.fmt, s.NewFiles(), c.files, 1, u);
    assert u in was;
  }

  lemma OpenedOld(s: Step, c: Catalog, t: Table)
    requires s.Good() && s.job.level == 0 && forall x :: x in c.files <==> HasMeta(s.levels, x)
    requires t in OpenedAt(s.fmt, s.NewFiles(), c.files, 1)
    ensures |s.levels| > 1 && t in s.levels[1]
  {
    hide Step.Good, Step.NewFiles, OpenedAt, OpenTable;
    OpenedMembers(s.fmt, s.NewFiles(), c.files, 1, t);
    var x :| Listed(s.NewFiles(), c.files, 1, x) && t == OpenTable(s.fmt, s.NewFiles(), x);
    var u :| u in s.levels[1] && x == MetaOf(1, u);
    KeptTable(s, 1, u);
  }

  lemma ListedIs(files: Files, metas: seq<FileMeta>, l: nat, x: FileMeta)
    ensures Listed(files, metas, l, x) <==> x in metas && x.num in files && x.level == l
  {
  }

  /** A read that nothing above answers and that finds a table of one value. */
  lemma OnlyRead(fmt: Builder.Format, lv: Levels, t: Table, k: bytes, v: bytes, maxSeq: nat)
    requires |lv| >= 2 && lv[0] == [] && FindInLevel(lv[1], k) == Some(t) && Only(t, k, v)
    requires forall r :: r in t.recs ==> r.ik.seqno <= maxSeq
    ensures ValueOf(Probes.ReadFrom(fmt, lv, 0, k, maxSeq)) == Some(v)
  {
    hide *;
    Probes.ReadStep(fmt, lv, 0, k, maxSeq);
    Probes.ReadStep(fmt, lv, 1, k, maxSeq);
    Probes.ReadFound(fmt, 1, lv[1], k, maxSeq);
    NothingRead(fmt, k, maxSeq);
    OnlyIs(t, k, v);
    var S := Contents(t.recs);
    Probes.NewestSilent(S, k, maxSeq);
    CutReads.VisibleIs(t.recs[0], k, maxSeq);
    ContentsHas(t.recs, t.recs[0]);
    CutReads.NewestParts(S, k, maxSeq);
    var r := Newest(S, k, maxSeq).value;
    ContentsHas(t.recs, r);
    PutValue(r);
  }

  lemma PutValue(r: Record)
    ensures r.ik.kind == Put ==> ValueOf(Some(r)) == Some(r.value)
  {
  }

  lemma NothingRead(fmt: Builder.Format, k: bytes, maxSeq: nat)
    ensures Probes.ReadLevel(fmt, 0, [], k, maxSeq) == None
  {
  }

  /** Write `v` under a key until a compaction is due and compact; write `w` under it until one is
      due again. Cut the edits of that compaction after the deletions of its upper inputs: the
      database, which read `w`, reads `v` once it is opened again. */
  lemma OldValueBack(o: Options, files: Files, k: bytes, v: bytes, w: bytes, watermark: nat)
    returns (es: seq<Runs.Event>, s: State, H: History, job: Job, m: nat)
    requires o.Usable() && o.fsync != Never
    requires |k| + |v| + 16 < o.memtableBytes && |k| + |w| + 16 < o.memtableBytes
    ensures Runs.Possible(o, files, es) && Runs.Reached(o, files, es) == (s, H)
    ensures |s.levels| == o.maxLevels && Pick(o, s.levels) == Some(job) && s.log == Log([], 0, 0, None)
    ensures |EngineCompact.JobStep(o, s, job, watermark).added| < m < |EngineCompact.JobStep(o, s, job, watermark).Edits()|
    ensures forall maxSeq :: s.nextSeq <= maxSeq ==> ValueOf(Found(o, s, k, maxSeq)) == Some(w)
    ensures var s' := Open(o, CompactCut(o, s, job, watermark, 0, false, m));
            forall maxSeq :: s'.nextSeq <= maxSeq ==> ValueOf(Found(o, s', k, maxSeq)) == Some(v)
  {
    hide *;
    es, s, H := FillFresh(o, files, k, v);
    es, s := MovedDown(o, files, es, s, H, k, v, watermark);
    UsableTrigger(o);
    TopIs(o, s, 0, k, v);
    var ts := s.levels[1];
    AllOnlyIs(s.levels[0], k, w);
    TopIs(o, s, 0, k, w);
    var one := s.levels[1..];
    es, s, H := Fill(o, files, es, s, H, 0, k, w);
    TopIs(o, s, o.l0Trigger, k, w);
    assert s.levels[1] == s.levels[1..][0] == one[0] == ts;
    LeadsIs(o, files, es, s, H);
    InvIs(o, s, H);
    PickAll(o, s, watermark);
    job := JobFor(s.levels, 0, s.levels[0]);
    var step, c := EngineCompact.JobStep(o, s, job, watermark), Replay(s.edits);
    m := |step.added| + |job.upper|;
    LastIsIs(H, k, w);
    forall maxSeq | s.nextSeq <= maxSeq ensures ValueOf(Found(o, s, k, maxSeq)) == Some(w) { FoundLast(o, s, H, k, maxSeq); }
    CataloguedIs(s);
    EngineCompact.CompactFields(o, s, job, watermark);
    EngineCompact.JobStepGood(o, s, H, job, watermark);
    KeepsIs(step, watermark);
    InputSetIs(job);
    forall r | r in InputSet(job) ensures r.ik.userKey == k && r.ik.kind == Put { JobOnly(s.levels, job, k, v, w, r); }
    AddedOnly(step, watermark, k);
    CutHead(step, c, k, v);
    CutOpened(o, s, H, job, watermark, 0, false, m);
    CutLower(step, c, 1);
    CutLevels.CutUpper(step, c, m);
    var s' := Open(o, CompactCut(o, s, job, watermark, 0, false, m));
    assert s'.levels[0] == [];
    OldFirstIs(ts, s'.levels[1], k);
    var t := s'.levels[1][0];
    AllOnlyIs(ts, k, v);
    NoLog(c.lastSeq);
    assert s.log.recs[..0] == [];
    forall maxSeq | s'.nextSeq <= maxSeq ensures ValueOf(Found(o, s', k, maxSeq)) == Some(v) {
      AllFlushed(o, s, H, t, 1);
      OnlyRead(o.fmt, s'.levels, t, k, v, maxSeq);
      FoundIs(o, s', k, maxSeq);
      EmptyMemory(s', k, maxSeq);
    }
  }

  lemma JobOnly(levels: Levels, job: Job, k: bytes, v: bytes, w: bytes, r: Record)
    requires |levels| >= 2 && r in LevelSet(job.upper) + LevelSet(job.lower) && job.upper == levels[0]
    requires AllOnly(levels[0], k, w) && AllOnly(levels[1], k, v) && forall t :: t in job.lower ==> t in levels[1]
    ensures r.ik.userKey == k && r.ik.kind == Put
  {
    hide *;
    InLevelSet(job.lower, r);
    InLevelSet(levels[1], r);
    if r in LevelSet(job.upper) { SetOnly(levels[0], k, w, r); } else { SetOnly(levels[1], k, v, r); }
  }

  lemma EmptyMemory(s: State, k: bytes, maxSeq: nat)
    requires s.mem == MemTables.InsertedAll([], []) && s.imms == []
    ensures FirstHit(InMemory(s), k, maxSeq) == None
  {
    assert InMemory(s)[1..] == [];
  }

  lemma NoLog(from: nat)
    ensures MaxSeqFrom(from, []) == from
  {
  }

  /** With an empty log the manifest's last number covers every record of a table. */
  lemma AllFlushed(o: Options, s: State, H: History, t: Table, l: nat)
    requires Inv(o, s, H) && s.log.recs == [] && l < |s.levels| && t in s.levels[l]
    ensures forall r :: r in t.recs ==> r.ik.seqno <= Replay(s.edits).lastSeq
  {
    hide *;
    InvIs(o, s, H);
    LiveIs(o, s, H);
    LoggedIs(s, H);
    Runs.AllSourcesIs(s);
    UnionSplit(InMemory(s), TableSources(s.levels));
    FaithfulIs(AllSources(s), H);
    assert H[..|H|] == H;
    forall r | r in t.recs ensures r.ik.seqno <= Replay(s.edits).lastSeq {
      InLevelSet(s.levels[l], r);
      Scans.TableSourceMembers(s.levels, r);
      ContentsHas(H, r);
    }
  }

  // ---------------------------------------------------------------- a reused number costs a value

  /** Output tables of a job whose first one takes number `next`: a key no input key is below is in
      none of the others. */
  lemma FirstHolds(o: Options, job: Job, watermark: nat, next: nat, k: bytes, i: nat, r: Record)
    requires InputsSorted(job) && 0 < i < |Outputs(o, job, watermark, next)|
    requires forall q :: q in InputSet(job) ==> Leq(k, q.ik.userKey)
    requires r in Outputs(o, job, watermark, next)[i].recs
    ensures r.ik.userKey != k
  {
    hide *;
    var ts := Outputs(o, job, watermark, next);
    OutputFacts(o, job, watermark, next);
    KeptKeepsNewest(o, job, watermark);
    KeptAreInputs(InputSet(job), Contents(Kept(o, job, watermark)), IntoLastLevel(o, job), watermark);
    FreshAt(o.fmt, ts, next, 0);
    FreshAt(o.fmt, ts, next, i);
    var q := ts[0].recs[|ts[0].recs| - 1];
    InLevelSet(ts, q);
    BelowAt(ts, 0, i);
    FirstLeast(ts[i].recs, r);
    if r.ik.userKey == k {
      LeqAnti(k, q.ik.userKey);
      LeqAnti(ts[i].recs[0].ik.userKey, k);
      LtLeq(q.ik.userKey, ts[i].recs[0].ik.userKey, k);
    }
  }

  lemma LtLeq(a: bytes, b: bytes, c: bytes)
    requires Lt(a, b) && Leq(b, c)
    ensures Lt(a, c)
  {
    if b != c { LtTrans(a, b, c); }
  }

  lemma FreshAt(fmt: Builder.Format, ts: seq<Table>, next: nat, i: nat)
    requires FreshTables(fmt, ts, next) && i < |ts|
    ensures ts[i].num == next + i && ts[i].recs != []
    ensures ts[i].smallest == ts[i].recs[0].ik.userKey && ts[i].largest == ts[i].recs[|ts[i].recs| - 1].ik.userKey
  {
  }

  lemma BelowAt(ts: seq<Table>, i: nat, j: nat)
    requires DisjointLevel(ts) && i < j < |ts|
    ensures Lt(ts[i].largest, ts[j].smallest)
  {
    assert RangeBelow(ts[i], ts[j]);
  }

  lemma FirstLeast(rs: seq<Record>, r: Record)
    requires Sorted(rs) && r in rs
    ensures Leq(rs[0].ik.userKey, r.ik.userKey)
  {
    var i :| 0 <= i < |rs| && rs[i] == r;
  }

  /** Levels in which nothing holds the key answer nothing. */
  lemma {:induction false} NoneFrom(fmt: Builder.Format, lv: Levels, j: nat, k: bytes, maxSeq: nat)
    requires j <= |lv| && (|lv| > 0 ==> lv[0] == [])
    requires forall l: nat, t: Table, r: Record :: l < |lv| && t in lv[l] && r in t.recs ==> r.ik.userKey != k
    ensures Probes.ReadFrom(fmt, lv, j, k, maxSeq) == None
    decreases |lv| - j
  {
    hide *;
    if j < |lv| {
      Probes.ReadStep(fmt, lv, j, k, maxSeq);
      NoneFrom(fmt, lv, j + 1, k, maxSeq);
      NothingRead(fmt, k, maxSeq);
      if j > 0 {
        Probes.ReadFound(fmt, j, lv[j], k, maxSeq);
        Probes.FoundSpans(lv[j], k);
        var f := FindInLevel(lv[j], k);
        if f.Some? {
          forall r | r in Contents(f.value.recs) ensures r.ik.userKey != k { ContentsHas(f.value.recs, r); }
          CutReads.NoVersionIn(Contents(f.value.recs), k, maxSeq);
        }
      }
    } else {
      Probes.ReadEnd(fmt, lv, k, maxSeq);
    }
  }

  /** Opened after a compaction whose first output took the number of one of its inputs, and was
      removed with it: only the other outputs are there. */
  lemma OutputGone(o: Options, s: State, job: Job, watermark: nat, d: Disk, k: bytes, t0: Table)
    requires 0 < |s.levels| == o.maxLevels && job == Job(0, s.levels[0], []) && WellFormed(o.fmt, s.files, s.levels)
    requires SameFiles(Replay(s.edits).files, s.levels) && forall l :: 0 < l < |s.levels| ==> s.levels[l] == []
    requires t0 in job.upper && t0.num == s.nextFile && InputsSorted(job)
    requires forall q :: q in InputSet(job) ==> Leq(k, q.ik.userKey)
    requires d.manifest == Some(CompactJob(o, s, job, watermark).edits) && d.files == CompactJob(o, s, job, watermark).files
    ensures var lv := Open(o, d).levels;
            && (|lv| > 0 ==> lv[0] == [])
            && forall l: nat, t: Table, r: Record :: l < |lv| && t in lv[l] && r in t.recs ==> r.ik.userKey != k
  {
    hide *;
    var lv := Open(o, d).levels;
    OpenFields(o, d);
    EditsIs(d);
    var files := Replay(d.Edits()).files;
    forall l: nat, t: Table | l < |lv| && t in lv[l] ensures l == 1 && forall r :: r in t.recs ==> r.ik.userKey != k {
      MetasAt(o.fmt, d.files, files, o.maxLevels, l);
      SortTablesMembers(l, OpenedAt(o.fmt, d.files, files, l), t);
      OpenedLate(o, s, job, watermark, d, k, t0, l, t);
    }
    if |lv| > 0 {
      MetasAt(o.fmt, d.files, files, o.maxLevels, 0);
      SomeTable(lv[0]);
      if t: Table :| t in lv[0] {
        SortTablesMembers(0, OpenedAt(o.fmt, d.files, files, 0), t);
        OpenedLate(o, s, job, watermark, d, k, t0, 0, t);
      }
    }
  }

  lemma OpenedLate(o: Options, s: State, job: Job, watermark: nat, d: Disk, k: bytes, t0: Table, l: nat, t: Table)
    requires 0 < |s.levels| == o.maxLevels && job == Job(0, s.levels[0], [])
    requires SameFiles(Replay(s.edits).files, s.levels) && forall l :: 0 < l < |s.levels| ==> s.levels[l] == []
    requires t0 in job.upper && t0.num == s.nextFile && InputsSorted(job)
    requires forall q :: q in InputSet(job) ==> Leq(k, q.ik.userKey)
    requires d.Edits() == CompactJob(o, s, job, watermark).edits && d.files == CompactJob(o, s, job, watermark).files
    requires t in OpenedAt(o.fmt, d.files, Replay(d.Edits()).files, l)
    ensures l == 1 && forall r :: r in t.recs ==> r.ik.userKey != k
  {
    var step, c := EngineCompact.JobStep(o, s, job, watermark), Replay(s.edits);
    hide Outputs, Step.NewFiles, SameFiles, InputsSorted, InputSet, CompactJob, EngineCompact.JobStep, Replay, OpenedAt,
        ApplyAll, CompactEdits, SizeOf, AfterCompact, Obsolete;
    EngineCompact.CompactFields(o, s, job, watermark);
    OpenedMembers(o.fmt, d.files, Replay(d.Edits()).files, l, t);
    var x :| Listed(d.files, Replay(d.Edits()).files, l, x) && t == OpenTable(o.fmt, d.files, x);
    LateFile(o, s, job, watermark, k, t0, x);
  }

  lemma LateFile(o: Options, s: State, job: Job, watermark: nat, k: bytes, t0: Table, x: FileMeta)
    requires 0 < |s.levels| == o.maxLevels && job == Job(0, s.levels[0], [])
    requires SameFiles(Replay(s.edits).files, s.levels) && forall l :: 0 < l < |s.levels| ==> s.levels[l] == []
    requires t0 in job.upper && t0.num == s.nextFile && InputsSorted(job)
    requires forall q :: q in InputSet(job) ==> Leq(k, q.ik.userKey)
    requires x in Replay(CompactJob(o, s, job, watermark).edits).files && x.num in CompactJob(o, s, job, watermark).files
    ensures x.level == 1 && forall r :: r in CompactJob(o, s, job, watermark).files[x.num] ==> r.ik.userKey != k
  {
    hide *;
    var step, c, s' := EngineCompact.JobStep(o, s, job, watermark), Replay(s.edits), CompactJob(o, s, job, watermark);
    EngineCompact.CompactFields(o, s, job, watermark);
    StepOfIs(o, s.files, s.levels, s.nextFile, job, watermark);
    JobStepIs(o, s, job, watermark);
    EngineCompact.ReplaySplit(s.edits, step.Edits());
    StepParts(step);
    ApplyCompact(c, job, step.added, step.next + |step.added|, x);
    AfterIs(c.files, job, step.added, x);
    OutputFacts(o, job, watermark, s.nextFile);
    if x in c.files {
      EngineFlush.SameFilesParts(c.files, s.levels);
      HasMetaIs(s.levels, x);
      var u :| u in s.levels[x.level] && x == MetaOf(x.level, u);
      EngineFlush.MetaOfFields(x.level, u);
      DeletedHere(job.upper, x, u);
    } else {
      CollectLevelMembers(1, step.added, x);
      var u :| u in step.added && x == MetaOf(1, u);
      EngineFlush.MetaOfFields(1, u);
      DbFacts.AddedAt(o.fmt, step.added, s.nextFile, u);
      EngineCompact.ObsoleteIs(job, s.nextFile);
      WithTablesAt(o.fmt, s.files, step.added, s.nextFile, u.num);
      NewFilesIs(step);
      forall r | r in u.recs ensures r.ik.userKey != k {
        FirstHolds(o, job, watermark, s.nextFile, k, u.num - s.nextFile, r);
      }
    }
  }

  lemma JobStepIs(o: Options, s: State, job: Job, watermark: nat)
    ensures EngineCompact.JobStep(o, s, job, watermark) == StepOf(o, s.files, s.levels, s.nextFile, job, watermark)
  {
    hide StepOf;
  }

  lemma NewFilesIs(s: Step)
    ensures s.NewFiles() == WithTables(s.files, s.added)
  {
  }

  lemma AfterIs(metas: seq<FileMeta>, job: Job, added: seq<Table>, x: FileMeta)
    ensures AfterCompact(metas, job, added, x) <==>
            && (x in metas || x in CollectLevel(job.level + 1, added))
            && !DeletedBy(job.level, job.upper, x) && !DeletedBy(job.level + 1, job.lower, x)
  {
    hide DeletedBy, CollectLevel;
  }

  lemma DeletedHere(ts: seq<Table>, x: FileMeta, u: Table)
    requires u in ts && u.num == x.num
    ensures DeletedBy(x.level, ts, x)
  {
  }

  /** Write a key until a compaction is due, write a later key, freeze, and cut the edits of the
      flush after the first. The database opened from that reads the first key. It compacts; the
      first output takes the number of the table just listed and is removed as one of the inputs.
      Opened once more, from all the database left, it does not read the key at any position. */
  lemma ReusedNumberLoses(o: Options, files: Files, k: bytes, j: bytes, v: bytes, w: bytes, watermark: nat)
    returns (es: seq<Runs.Event>, s: State, H: History, d: Disk)
    requires o.Usable() && o.fsync != Never && Lt(k, j)
    requires |k| + |v| + 16 < o.memtableBytes && |j| + |w| + 16 < o.memtableBytes
    ensures Runs.Possible(o, files, es) && Runs.Reached(o, files, es) == (s, H)
    ensures s.imms != [] && s.imms[0] != [] && |s.levels| >= 1 && s.log.Whole() && s.log.durable == |s.log.recs| == 1
    ensures |Open(o, FlushCut(o, s, 1, false, 1)).levels| == o.maxLevels
    ensures var s1 := Open(o, FlushCut(o, s, 1, false, 1));
            && (forall maxSeq :: s1.nextSeq <= maxSeq ==> ValueOf(Found(o, s1, k, maxSeq)) == Some(v))
            && MaybeCompact(o, s1, watermark).Some?
            && var s2 := MaybeCompact(o, s1, watermark).value;
               d == Disk(Some(s2.edits), Some(s2.log.recs), false, s2.files)
    ensures forall maxSeq :: Found(o, Open(o, d), k, maxSeq) == None
  {
    hide *;
    es, s, H := FillFresh(o, files, k, v);
    TopIs(o, s, o.l0Trigger, k, v);
    UsableTrigger(o);
    ghost var top, H0 := s.levels, H;
    var r := NewRecord(s, j, w, Put);
    RecordIs(s, j, w);
    es, s := Frozen1(o, files, es, s, H, j, w);
    H := H + [r];
    LtAsym(k, j);
    LastAdded(H0, r, k, v);
    LastIsIs(H, k, v);
    LeadsIs(o, files, es, s, H);
    InvIs(o, s, H);
    LoggedIs(s, H);
    OneWhole(s.log);
    TornFlushLog(o, s, H, 1, false, 1);
    OnDiskIs(s, H, 1);
    assert H[..|H| - |s.log.recs| + 1] == H;
    var c := FlushCut(o, s, 1, false, 1);
    var s1 := Open(o, c);
    ReadsAllIs(o, c, H);
    FirstEditOpened(o, s, H, 1, false);
    var t := NewTable(o.fmt, s.nextFile, s.imms[0]);
    EngineFlush.FlushFields(o, s);
    EngineFlush.WithTopIs(s.levels, t);
    PickAll(o, s1, watermark);
    var job := JobFor(s1.levels, 0, s1.levels[0]);
    SomeTable(job.lower);
    assert job == Job(0, s1.levels[0], []);
    var s2 := CompactJob(o, s1, job, watermark);
    d := Disk(Some(s2.edits), Some(s2.log.recs), false, s2.files);
    EditsIs(d);
    EngineCompact.CompactFields(o, s1, job, watermark);
    JobSorted(o.fmt, s1.files, s1.levels, job);
    forall q | q in InputSet(job) ensures Leq(k, q.ik.userKey) { InputKey(s.levels[0], job, t, k, v, r, q); }
    OutputGone(o, s1, job, watermark, d, k, t);
    OpenFields(o, d);
    assert s.log.recs[..1] == [r];
    forall maxSeq ensures Found(o, Open(o, d), k, maxSeq) == None {
      FoundIs(o, Open(o, d), k, maxSeq);
      NoneFrom(o.fmt, Open(o, d).levels, 0, k, maxSeq);
      OtherMemory(Open(o, d), r, k, maxSeq);
    }
  }

  lemma OneWhole(log: Log)
    ensures log.torn == None ==> log.Whole()
  {
  }

  /** The inputs are writes of the first key and of the later one. */
  lemma InputKey(ts: seq<Table>, job: Job, t: Table, k: bytes, v: bytes, r: Record, q: Record)
    requires AllOnly(ts, k, v) && job == Job(0, ts + [t], []) && t.recs == [r] && Lt(k, r.ik.userKey) && q in InputSet(job)
    ensures Leq(k, q.ik.userKey)
  {
    hide *;
    InputSetIs(job);
    NoTables();
    InLevelSet(job.upper, q);
    var u :| u in job.upper && q in u.recs;
    AllOnlyIs(ts, k, v);
    OnlyIs(u, k, v);
    LeqAnti(k, q.ik.userKey);
    LtAsym(k, r.ik.userKey);
    if Lt(q.ik.userKey, k) { LtAsym(q.ik.userKey, k); }
  }

  lemma OneInserted(r: Record)
    ensures MemTables.InsertedAll([], [r]) == [r]
  {
    assert [r][..0] == [];
    assert MemTables.InsertedAll([], [r][..0]) == [];
  }

  /** A memtable with one record of another key answers nothing. */
  lemma OtherMemory(s: State, r: Record, k: bytes, maxSeq: nat)
    requires s.mem == MemTables.InsertedAll([], [r]) && s.imms == [] && r.ik.userKey != k
    ensures FirstHit(InMemory(s), k, maxSeq) == None
  {
    hide FirstHit, Newest;
    OneInserted(r);
    InMemoryIs(s);
    EngineFlush.NoFrozen();
    assert InMemory(s) == [Contents(s.mem)];
    Probes.OneHit(Contents(s.mem), k, maxSeq);
    CutReads.NoVersionIn(Contents(s.mem), k, maxSeq);
  }
}
