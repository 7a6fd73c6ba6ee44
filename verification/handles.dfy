/** File numbers are never reused, so open tables and cached blocks stay true; and without
    compaction old read positions do too (src/db.rs 185-206, src/sstable/reader.rs 28-40). */
module Handles {
  import opened ByteStrings
  import opened Keys
  import opened Records
  import opened Builder
  import opened WriteAheadLog
  import opened Versions
  import opened Sources
  import opened Histories
  import opened EngineOptions
  import opened Compaction
  import opened Releveling
  import opened CompactedLevels
  import opened Engine
  import opened EngineInvariant
  import opened EngineFlush
  import opened EngineCompact
  import opened EngineRecover
  import opened Runs
  import LevelFaith

  // ---------------------------------------------------------------- numbers are not reused

  /** Below `next`, files only disappear; none changes and none comes back. */
  ghost predicate OnlyRemoves(before: Files, next: nat, after: Files, next': nat) {
    next <= next' && forall n :: n < next && n in after ==> n in before && after[n] == before[n]
  }

  lemma CompactFiles(o: Options, s: State, H: History, watermark: nat)
    requires Inv(o, s, H) && o.Usable() && |s.levels| == o.maxLevels && MaybeCompact(o, s, watermark).Some?
    ensures OnlyRemoves(s.files, s.nextFile, MaybeCompact(o, s, watermark).value.files,
        MaybeCompact(o, s, watermark).value.nextFile)
  {
    hide *;
    MaybeCompactIs(o, s, watermark);
    PickJob(o, s.levels);
    InvIs(o, s, H);
    var job := Pick(o, s.levels).value;
    var step, s' := JobStep(o, s, job, watermark), CompactJob(o, s, job, watermark);
    CompactFields(o, s, job, watermark);
    JobStepGood(o, s, H, job, watermark);
    GoodParts(step);
    NewFilesIs(step);
    forall n: nat | n < s.nextFile && n in s'.files ensures n in s.files && s'.files[n] == s.files[n] {
      WithTablesAt(o.fmt, s.files, step.added, s.nextFile, n);
    }
    RemovesIs(s.files, s.nextFile, s'.files, s'.nextFile);
  }

  lemma RemovesIs(before: Files, next: nat, after: Files, next': nat)
    ensures OnlyRemoves(before, next, after, next') <==>
            next <= next' && forall n: nat :: n < next && n in after ==> n in before && after[n] == before[n]
  {
  }

  lemma SameFilesRemove(s: State, s': State)
    requires s'.files == s.files && s'.nextFile == s.nextFile
    ensures OnlyRemoves(s.files, s.nextFile, s'.files, s'.nextFile)
  {
  }

  lemma WriteFiles(o: Options, s: State, k: bytes, v: bytes, kind: ValueKind)
    requires |s.levels| >= 1
    ensures Engine.Write(o, s, k, v, kind).files == s.files && Engine.Write(o, s, k, v, kind).nextFile == s.nextFile
  {
  }

  lemma FlushFiles(o: Options, s: State)
    requires |s.levels| >= 1 && s.imms != []
    ensures OnlyRemoves(s.files, s.nextFile, FlushOldest(o, s).files, FlushOldest(o, s).nextFile)
  {
    hide NewTable, FlushEdits;
  }

  lemma EventFiles(o: Options, s: State, H: History, e: Event)
    requires Inv(o, s, H) && o.Usable() && |s.levels| == o.maxLevels && CanHappen(o, s, e) && !e.Crash? && !e.Reopen?
    ensures OnlyRemoves(s.files, s.nextFile, After(o, s, e).files, After(o, s, e).nextFile)
  {
    hide *;
    CanIs(o, s, e);
    Runs.AfterIs(o, s, e);
    var s' := After(o, s, e);
    match e {
      case Write(k, v, kind) => WriteFiles(o, s, k, v, kind); SameFilesRemove(s, s');
      case Sync => SyncFields(o, s); SameFilesRemove(s, s');
      case FreezeMem => FreezeFields(o, s); SyncFields(o, s); SameFilesRemove(s, s');
      case FlushOne => FlushFiles(o, s);
      case NewLog => RecreateIs(s); SameFilesRemove(s, s');
      case CompactOnce(w) => CompactFiles(o, s, H, w);
      case Reopen(_) =>
      case Crash(_, _) =>
    }
  }

  lemma {:induction false} RunFiles(o: Options, s: State, H: History, es: seq<Event>)
    requires Inv(o, s, H) && o.Usable() && |s.levels| == o.maxLevels && IsRun(o, s, H, es)
    requires forall e :: e in es ==> !e.Crash? && !e.Reopen?
    ensures var end := EndOf(o, s, H, es).0; OnlyRemoves(s.files, s.nextFile, end.files, end.nextFile)
    decreases |es|
  {
    hide *;
    if es == [] {
      EmptyRun(o, s, H);
      SameFilesRemove(s, s);
    } else {
      RunStep(o, s, H, es);
      assert es[0] in es && forall x :: x in es[1..] ==> x in es;
      var s', H' := After(o, s, es[0]), Runs.Recorded(o, s, H, es[0]);
      EventFiles(o, s, H, es[0]);
      RunFiles(o, s', H', es[1..]);
      var end := EndOf(o, s', H', es[1..]).0;
      RemovesIs(s.files, s.nextFile, s'.files, s'.nextFile);
      RemovesIs(s'.files, s'.nextFile, end.files, end.nextFile);
      RemovesIs(s.files, s.nextFile, end.files, end.nextFile);
    }
  }

  /** A reader that took its tables and released the lock reads the same runs however many
      flushes and compactions follow, as long as the files are there; and no later table has
      one of their numbers with different contents. */
  lemma HandlesStable(o: Options, s: State, H: History, es: seq<Event>, l: nat, t: Table)
    requires Inv(o, s, H) && o.Usable() && |s.levels| == o.maxLevels && IsRun(o, s, H, es)
    requires forall e :: e in es ==> !e.Crash? && !e.Reopen?
    requires l < |s.levels| && t in s.levels[l]
    ensures var end := EndOf(o, s, H, es).0;
            && (t.num in end.files ==> end.files[t.num] == t.recs)
            && (forall l': nat, t' :: l' < |end.levels| && t' in end.levels[l'] && t'.num == t.num ==> t'.recs == t.recs)
  {
    hide *;
    var end := EndOf(o, s, H, es);
    RunFiles(o, s, H, es);
    RemovesIs(s.files, s.nextFile, end.0.files, end.0.nextFile);
    LiveFile(o, s, H, l, t);
    forall l': nat, t': Table | l' < |end.0.levels| && t' in end.0.levels[l'] && t'.num == t.num
      ensures t'.recs == t.recs {
      LiveFile(o, end.0, end.1, l', t');
    }
  }

  /** A live table's file is there and holds its run. */
  lemma LiveFile(o: Options, s: State, H: History, l: nat, t: Table)
    requires Inv(o, s, H) && l < |s.levels| && t in s.levels[l]
    ensures t.num < s.nextFile && t.num in s.files && s.files[t.num] == t.recs
  {
    hide *;
    InvIs(o, s, H);
    LiveIs(o, s, H);
    SoundFacts(o.fmt, s.files, s.levels, s.nextFile);
    TableFile(o.fmt, s.files, t);
  }

  lemma TableFile(fmt: Format, files: Files, t: Table)
    requires WellFormedTable(fmt, files, t)
    ensures t.num in files && files[t.num] == t.recs
  {
  }

  // ---------------------------------------------------------------- reads at older positions

  /** Every version ever written is still somewhere. */
  ghost predicate Whole(s: State, H: History) {
    Union(AllSources(s)) == Contents(H)
  }

  lemma WholeIs(s: State, H: History)
    ensures Whole(s, H) <==> Union(AllSources(s)) == Contents(H)
  {
  }

  lemma HeadUnion(ss: seq<Source>)
    requires ss != []
    ensures Union(ss) == ss[0] + Union(ss[1..])
  {
  }

  lemma AppendWhole(o: Options, s: State, H: History, r: Record)
    requires Inv(o, s, H) && Whole(s, H) && IsNext(s, r)
    ensures Whole(AppendRecord(o, s, r), H + [r])
  {
    hide *;
    var s' := AppendRecord(o, s, r);
    InvIs(o, s, H);
    WholeIs(s, H);
    WholeIs(s', H + [r]);
    AppendFields(o, s, r);
    AppendLive(o, s, H, r);
    SourcesIs(s);
    SourcesIs(s');
    HeadUnion(AllSources(s));
    HeadUnion(AllSources(s'));
    ContentsAppend(H, r);
  }

  lemma FreezeWhole(o: Options, s: State, H: History)
    requires Whole(s, H)
    ensures Whole(Freeze(o, s), H)
  {
    hide *;
    var s' := Freeze(o, s);
    WholeIs(s, H);
    WholeIs(s', H);
    FreezeFields(o, s);
    SyncFields(o, s);
    FrozenStep(s.imms, s.mem);
    SourcesIs(s);
    SourcesIs(s');
    NothingSorted();
    assert AllSources(s') == [{}] + AllSources(s);
    HeadUnion(AllSources(s'));
    assert AllSources(s')[1..] == AllSources(s);
  }

  lemma FlushWhole(o: Options, s: State, H: History)
    requires Whole(s, H) && s.imms != [] && |s.levels| >= 1
    ensures Whole(FlushOldest(o, s), H)
  {
    hide *;
    var s' := FlushOldest(o, s);
    WholeIs(s, H);
    WholeIs(s', H);
    if s.imms[0] == [] {
      FlushEmptyIs(o, s);
      FrozenOldest(s.imms);
      NothingSorted();
      SourcesIs(s);
      SourcesIs(s');
      var f, T := [Contents(s.mem)] + Frozen(s.imms[1..]), TableSources(s.levels);
      assert AllSources(s) == f + [{}] + T && AllSources(s') == f + T;
      LevelFaith.EmptiesUnion(f, [{}], T);
    } else {
      FlushFields(o, s);
      FlushSources(s, s', NewTable(o.fmt, s.nextFile, s.imms[0]));
    }
  }

  /** After a crash the surviving log and the tables still hold all that is left of the history. */
  lemma CrashWhole(o: Options, s: State, H: History, n: nat, d: Disk)
    requires Inv(o, s, H) && Whole(s, H) && o.fsync != Never && CrashImage(s, n, d)
    ensures 0 <= Flushed(s, H) && n <= |s.log.recs| && Whole(Open(o, d), Remaining(s, H, n))
  {
    hide *;
    CrashRecovers(o, s, H, n, d);
    ImageIs(s, n, d);
    LeftWhole(o, s, H, n, d);
  }

  lemma RestartWhole(o: Options, s: State, H: History, d: Disk)
    requires Inv(o, s, H) && Whole(s, H) && ClosedImage(s, d)
    ensures Whole(Open(o, d), H)
  {
    hide *;
    var n := |s.log.recs|;
    RestartRecovers(o, s, H, d);
    ClosedIs(s, d);
    InvIs(o, s, H);
    LoggedIs(s, H);
    OnDiskIs(s, H, n);
    assert H[..|H|] == H && s.log.recs[..n] == s.log.recs;
    LeftWhole(o, s, H, n, d);
  }

  lemma LeftWhole(o: Options, s: State, H: History, n: nat, d: Disk)
    requires Inv(o, s, H) && Whole(s, H) && 0 <= Flushed(s, H) && n <= |s.log.recs|
    requires d.manifest == Some(s.edits) && d.Log() == s.log.recs[..n] && KeepsLive(s, d.files)
    requires Recoverable(o, d, Remaining(s, H, n))
    ensures Whole(Open(o, d), Remaining(s, H, n))
  {
    hide *;
    var s' := Open(o, d);
    var H' := Remaining(s, H, n);
    OpenInv(o, d, H');
    InvIs(o, s, H);
    LiveIs(o, s, H);
    InvIs(o, s', H');
    LiveIs(o, s', H');
    FaithfulIs(AllSources(s'), H');
    WholeIs(s, H);
    WholeIs(s', H');
    LoggedIs(s, H);
    OnDiskIs(s, H, n);
    ImageLevels(o, s, H, d);
    OpenFields(o, d);
    OpenLogged(o, d, H');
    SourcesIs(s');
    HeadUnion(AllSources(s'));
    NoFrozen();
    assert Frozen(s'.imms) + TableSources(s.levels) == TableSources(s.levels);
    var f, w := |H| - |s.log.recs|, s.log.recs;
    forall r | r in Contents(H') ensures r in Union(AllSources(s')) {
      ContentsHas(H', r);
      ContentsHas(w[..n], r);
      if r !in w[..n] {
        BeforeCut(H, f, n, r);
        var i :| 0 <= i < f && H[i] == r;
        BeforeLog(o, s, H, i);
      }
    }
  }

  lemma BeforeCut(H: History, f: nat, n: nat, r: Record)
    requires f + n <= |H| && r in H[..f + n] && r !in H[f..][..n]
    ensures exists i :: 0 <= i < f && H[i] == r
  {
    assert H[..f + n] == H[..f] + H[f..][..n];
    var i :| 0 <= i < |H[..f]| && H[..f][i] == r;
  }

  lemma OpenLogged(o: Options, d: Disk, H: History)
    requires Recoverable(o, d, H)
    ensures Contents(Open(o, d).mem) == Contents(d.Log())
  {
    hide *;
    RecoverableIs(o, d, H);
    OpenFields(o, d);
    IncreasingDrop(H, |H| - |d.Log()|);
    ReplayedMem(d.Log());
  }

  /** What is no longer in the log is in the tables. */
  lemma BeforeLog(o: Options, s: State, H: History, i: nat)
    requires Inv(o, s, H) && Whole(s, H) && i < |H| - |s.log.recs|
    ensures H[i] in Union(TableSources(s.levels))
  {
    hide *;
    var r := H[i];
    InvIs(o, s, H);
    LiveIs(o, s, H);
    LoggedIs(s, H);
    WholeIs(s, H);
    ContentsHas(H, r);
    AllSourcesIs(s);
    UnionSplit(InMemory(s), TableSources(s.levels));
    if r in Union(InMemory(s)) {
      MemoryLogged(s, H, r);
      ContentsHas(s.log.recs, r);
      var j :| 0 <= j < |s.log.recs| && s.log.recs[j] == r;
      assert H[|H| - |s.log.recs|..][j] == r;
      IncreasingAt(H, i, |H| - |s.log.recs| + j);
    }
  }

  lemma IncreasingAt(H: History, i: nat, j: nat)
    requires Increasing(H) && i < j < |H|
    ensures H[i].ik.seqno < H[j].ik.seqno
  {
  }

  lemma {:induction false} FrozenMember(imms: seq<seq<Record>>, r: Record)
    ensures r in Union(Frozen(imms)) ==> exists m :: m in imms && r in Contents(m)
  {
    if imms != [] {
      hide Contents, Union;
      var front, m := imms[..|imms| - 1], imms[|imms| - 1];
      FrozenMember(front, r);
      HeadUnion(Frozen(imms));
      assert m in imms && forall x :: x in front ==> x in imms;
    } else {
      assert Union([]) == {};
    }
  }

  lemma MemoryLogged(s: State, H: History, r: Record)
    requires Logged(s, H) && r in Union(InMemory(s))
    ensures r in Contents(s.log.recs)
  {
    hide *;
    LoggedIs(s, H);
    InMemoryIs(s);
    HeadUnion(InMemory(s));
    FrozenMember(s.imms, r);
  }

  lemma SameSources(s: State, s': State, H: History)
    requires Whole(s, H) && s'.mem == s.mem && s'.imms == s.imms && s'.levels == s.levels
    ensures Whole(s', H)
  {
  }

  lemma WriteIs(o: Options, s: State, k: bytes, v: bytes, kind: ValueKind)
    requires |s.levels| >= 1
    ensures Engine.Write(o, s, k, v, kind) ==
            if Stalled(o, s) then s
            else var s' := AppendRecord(o, s, NewRecord(s, k, v, kind));
                 if s'.memBytes >= o.memtableBytes then Freeze(o, s') else s'
    ensures IsNext(s, NewRecord(s, k, v, kind))
  {
  }

  lemma EventWhole(o: Options, s: State, H: History, e: Event)
    requires Inv(o, s, H) && o.Usable() && |s.levels| == o.maxLevels && CanHappen(o, s, e) && !e.CompactOnce?
        && Whole(s, H)
    ensures Whole(After(o, s, e), Runs.Recorded(o, s, H, e))
  {
    hide *;
    CanIs(o, s, e);
    Runs.AfterIs(o, s, e);
    Runs.RecordedIs(o, s, H, e);
    var s' := After(o, s, e);
    match e {
      case Write(k, v, kind) =>
        WriteIs(o, s, k, v, kind);
        if !Stalled(o, s) {
          var r := NewRecord(s, k, v, kind);
          AppendWhole(o, s, H, r);
          FreezeWhole(o, AppendRecord(o, s, r), H + [r]);
        }
      case Sync => SyncFields(o, s); SameSources(s, s', H);
      case FreezeMem => FreezeWhole(o, s, H);
      case FlushOne => FlushWhole(o, s, H);
      case NewLog => RecreateIs(s); SameSources(s, s', H);
      case CompactOnce(_) =>
      case Reopen(d) => RestartWhole(o, s, H, d);
      case Crash(n, d) => CrashWhole(o, s, H, n, d);
    }
  }

  lemma {:induction false} RunWhole(o: Options, s: State, H: History, es: seq<Event>)
    requires Inv(o, s, H) && o.Usable() && |s.levels| == o.maxLevels && IsRun(o, s, H, es) && Whole(s, H)
    requires forall e :: e in es ==> !e.CompactOnce?
    ensures Whole(EndOf(o, s, H, es).0, EndOf(o, s, H, es).1)
    decreases |es|
  {
    hide *;
    if es == [] {
      EmptyRun(o, s, H);
    } else {
      RunStep(o, s, H, es);
      assert es[0] in es && forall x :: x in es[1..] ==> x in es;
      EventWhole(o, s, H, es[0]);
      RunWhole(o, After(o, s, es[0]), Runs.Recorded(o, s, H, es[0]), es[1..]);
    }
  }

  lemma FreshWhole(o: Options, files: Files)
    ensures Whole(Fresh(o, files), [])
  {
    hide *;
    FreshInv(o, files);
    var s := Fresh(o, files);
    InvIs(o, s, []);
    LiveIs(o, s, []);
    FaithfulIs(AllSources(s), []);
    WholeIs(s, []);
    NothingSorted();
  }

  /** In every run without compactions, crashes included, a read at any position, past or
      present, returns the last write up to that position. */
  lemma SnapshotReads(o: Options, files: Files, es: seq<Event>, k: bytes, maxSeq: nat)
    requires o.Usable() && Possible(o, files, es) && forall e :: e in es ==> !e.CompactOnce?
    ensures var end := Reached(o, files, es);
            FirstHit(AllSources(end.0), k, maxSeq) == LastWrite(UpTo(end.1, maxSeq), k)
  {
    hide *;
    FreshInv(o, files);
    FreshWhole(o, files);
    ReachedIs(o, files, es);
    RunWhole(o, Fresh(o, files), [], es);
    var end := Reached(o, files, es);
    WholeIs(end.0, end.1);
    InvIs(o, end.0, end.1);
    LiveIs(o, end.0, end.1);
    FaithfulIs(AllSources(end.0), end.1);
    CompleteReads(AllSources(end.0), end.1, k, maxSeq);
  }
}
