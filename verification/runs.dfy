/** Whole runs of the engine: writes, flushes, compactions and crashes in any order. */
module Runs {
  import opened ByteStrings
  import opened Keys
  import opened Records
  import opened WriteAheadLog
  import opened ManifestLog
  import opened Versions
  import opened Sources
  import opened Histories
  import opened EngineOptions
  import opened Compaction
  import opened CompactionSteps
  import opened Engine
  import opened EngineInvariant
  import opened EngineFlush
  import opened EngineCompact
  import opened EngineRecover
  import CompactedLevels
  import MemTables
  import Releveling

  /** One atomic section. `flush`, `compact` and the background loop are sequences of these;
      `Reopen` is `close` followed by `open`, `Crash` is a loss of power followed by `open` on what
      is left, which may end in a torn log record. The next of either may come at once, or once the
      log was started afresh: not while records stand behind torn bytes (`WholeAfter`), where the
      engine keeps no promise (`LostAfterRun`). */
  datatype Event =
    | Write(key: bytes, value: bytes, kind: ValueKind)
    | Sync
    | FreezeMem
    | FlushOne
    | NewLog
    | CompactOnce(watermark: nat)
    | Reopen(disk: Disk)
    | Crash(kept: nat, disk: Disk)

  ghost predicate CanHappen(o: Options, s: State, e: Event)
    requires o.Usable() && |s.levels| == o.maxLevels
  {
    match e
    case Write(_, _, _) => true
    case Sync => true
    case FreezeMem => s.mem != []
    case FlushOne => s.imms != []
    case NewLog => s.mem == [] && s.imms == [] && Replay(s.edits).lastSeq == s.nextSeq
    case CompactOnce(w) => MaybeCompact(o, s, w).Some?
    case Reopen(d) => ClosedImage(s, d)
    case Crash(n, d) => o.fsync != Never && CrashImage(s, n, d)
  }

  ghost function After(o: Options, s: State, e: Event): State
    requires o.Usable() && |s.levels| == o.maxLevels && CanHappen(o, s, e)
  {
    match e
    case Write(k, v, kind) => Engine.Write(o, s, k, v, kind)
    case Sync => SyncLog(o, s)
    case FreezeMem => Freeze(o, s)
    case FlushOne => FlushOldest(o, s)
    case NewLog => RecreateLog(s)
    case CompactOnce(w) => MaybeCompact(o, s, w).value
    case Reopen(d) => Open(o, d)
    case Crash(_, d) => Open(o, d)
  }

  /** The write an event adds to the history, if it is a write that does not stall. */
  function Accepted(o: Options, s: State, e: Event): seq<Record>
    requires o.Usable() && |s.levels| == o.maxLevels
  {
    if e.Write? && !Stalled(o, s) then [NewRecord(s, e.key, e.value, e.kind)] else []
  }

  /** The history after an event: a crash cuts it where it cut the log. */
  function Recorded(o: Options, s: State, H: History, e: Event): History
    requires o.Usable() && |s.levels| == o.maxLevels
  {
    if e.Crash? && 0 <= |H| - |s.log.recs| + e.kept <= |H| then H[..|H| - |s.log.recs| + e.kept]
    else H + Accepted(o, s, e)
  }

  // ---------------------------------------------------------------- one event

  lemma CanIs(o: Options, s: State, e: Event)
    requires o.Usable() && |s.levels| == o.maxLevels && CanHappen(o, s, e)
    ensures e.FlushOne? ==> s.imms != []
    ensures e.NewLog? ==> s.mem == [] && s.imms == [] && Replay(s.edits).lastSeq == s.nextSeq
    ensures e.CompactOnce? ==> MaybeCompact(o, s, e.watermark).Some?
    ensures e.Reopen? ==> ClosedImage(s, e.disk)
    ensures e.Crash? ==> o.fsync != Never && CrashImage(s, e.kept, e.disk)
    ensures o.maxLevels >= 2
  {
  }

  lemma AfterIs(o: Options, s: State, e: Event)
    requires o.Usable() && |s.levels| == o.maxLevels && CanHappen(o, s, e)
    ensures |s.levels| >= 1
    ensures e.Write? ==> After(o, s, e) == Engine.Write(o, s, e.key, e.value, e.kind)
    ensures e.Sync? ==> After(o, s, e) == SyncLog(o, s)
    ensures e.FreezeMem? ==> After(o, s, e) == Freeze(o, s)
    ensures e.FlushOne? ==> s.imms != [] && After(o, s, e) == FlushOldest(o, s)
    ensures e.NewLog? ==> After(o, s, e) == RecreateLog(s)
    ensures e.CompactOnce? ==> MaybeCompact(o, s, e.watermark) == Some(After(o, s, e))
    ensures e.Crash? || e.Reopen? ==> After(o, s, e) == Open(o, e.disk)
  {
  }

  lemma RecordedIs(o: Options, s: State, H: History, e: Event)
    requires o.Usable() && |s.levels| == o.maxLevels
    ensures e.Write? && !Stalled(o, s) ==> Recorded(o, s, H, e) == H + [NewRecord(s, e.key, e.value, e.kind)]
    ensures (e.Write? && Stalled(o, s)) || (!e.Write? && !e.Crash?) ==> Recorded(o, s, H, e) == H
    ensures e.Crash? && 0 <= Flushed(s, H) && e.kept <= |s.log.recs| ==> Recorded(o, s, H, e) == Remaining(s, H, e.kept)
  {
    assert H + [] == H;
  }

  /** Every event, a crash included, keeps the invariant. */
  lemma EventInv(o: Options, s: State, H: History, e: Event)
    requires Inv(o, s, H) && o.Usable() && |s.levels| == o.maxLevels && CanHappen(o, s, e)
    ensures Inv(o, After(o, s, e), Recorded(o, s, H, e)) && |After(o, s, e).levels| == o.maxLevels
  {
    hide *;
    CanIs(o, s, e);
    AfterIs(o, s, e);
    RecordedIs(o, s, H, e);
    match e {
      case Write(k, v, kind) => WriteInv(o, s, H, k, v, kind);
      case Sync => SyncInv(o, s, H);
      case FreezeMem => FreezeInv(o, s, H);
      case FlushOne => FlushOldestInv(o, s, H);
      case NewLog => RecreateLogInv(o, s, H);
      case CompactOnce(w) => MaybeCompactInv(o, s, H, w);
      case Reopen(d) =>
        RestartRecovers(o, s, H, d);
        OpenInv(o, d, H);
      case Crash(n, d) =>
        CrashRecovers(o, s, H, n, d);
        OpenInv(o, d, Remaining(s, H, n));
    }
    InvLevels(o, After(o, s, e), Recorded(o, s, H, e));
  }

  /** When the log is whole, so that a crash may come: opening and starting the log afresh make it
      so, an accepted write ends it as long as torn bytes stand in the log, nothing else does. */
  lemma WholeAfter(o: Options, s: State, e: Event)
    requires o.Usable() && |s.levels| == o.maxLevels && CanHappen(o, s, e)
    requires s.log.torn.Some? ==> s.log.torn.value <= |s.log.recs|
    ensures After(o, s, e).log.Whole() <==>
            e.Crash? || e.Reopen? || e.NewLog? || s.log.torn == None || (s.log.Whole() && Accepted(o, s, e) == [])
  {
    hide CompactJob, MemTables.Inserted, NewTable, FromMetas, RecordBytes, MemTables.InsertedAll, MaxSeqFrom, Replay;
    hide MemTables.CostOf, KeepsLive;
    if e.CompactOnce? { CompactLog(o, s, e.watermark); }
  }

  lemma CompactLog(o: Options, s: State, watermark: nat)
    requires o.Usable() && |s.levels| == o.maxLevels && MaybeCompact(o, s, watermark).Some?
    ensures MaybeCompact(o, s, watermark).value.log == s.log
  {
    hide StepOf, Obsolete;
  }

  // ---------------------------------------------------------------- runs

  /** A run from `s` with history `H`: its events can happen one after the other. */
  ghost predicate IsRun(o: Options, s: State, H: History, es: seq<Event>)
    requires Inv(o, s, H) && o.Usable() && |s.levels| == o.maxLevels
    decreases |es|
  {
    es == [] ||
    (CanHappen(o, s, es[0])
     && (EventInv(o, s, H, es[0]); IsRun(o, After(o, s, es[0]), Recorded(o, s, H, es[0]), es[1..])))
  }

  /** Where a run ends: the state, and the writes that are still part of the history. */
  ghost function EndOf(o: Options, s: State, H: History, es: seq<Event>): (end: (State, History))
    requires Inv(o, s, H) && o.Usable() && |s.levels| == o.maxLevels && IsRun(o, s, H, es)
    ensures Inv(o, end.0, end.1) && |end.0.levels| == o.maxLevels
    decreases |es|
  {
    if es == [] then (s, H)
    else
      EventInv(o, s, H, es[0]);
      EndOf(o, After(o, s, es[0]), Recorded(o, s, H, es[0]), es[1..])
  }

  /** All writes a run accepted, in order, crashes or not. */
  ghost function AllAccepted(o: Options, s: State, H: History, es: seq<Event>): History
    requires Inv(o, s, H) && o.Usable() && |s.levels| == o.maxLevels && IsRun(o, s, H, es)
    decreases |es|
  {
    if es == [] then []
    else
      EventInv(o, s, H, es[0]);
      Accepted(o, s, es[0]) + AllAccepted(o, After(o, s, es[0]), Recorded(o, s, H, es[0]), es[1..])
  }

  /** The database in a directory with no manifest and no log. */
  function Fresh(o: Options, files: Files): State {
    Open(o, Disk(None, None, false, files))
  }

  /** A new database: file numbers begin at 1, sequence numbers at 0, and its manifest says so. */
  lemma FreshIs(o: Options, files: Files)
    ensures var s := Fresh(o, files);
            && s.mem == [] && s.memBytes == 0 && s.imms == [] && s.files == files && s.log == Log([], 0, 0, None)
            && s.nextFile == 1 && s.nextSeq == 0 && s.edits == [SetNextFileNum(1), SetLastSeq(0)]
            && |s.levels| == o.maxLevels && forall l :: 0 <= l < |s.levels| ==> s.levels[l] == []
  {
    FirstEdits(0, 0);
    NoLevels(o.fmt, files, o.maxLevels);
    hide Replay, FromMetas;
  }

  lemma FreshInv(o: Options, files: Files)
    ensures Inv(o, Fresh(o, files), []) && |Fresh(o, files).levels| == o.maxLevels
  {
    hide Inv, Recoverable, Open;
    EmptyRecoverable(o, files);
    OpenInv(o, Disk(None, None, false, files), []);
    InvLevels(o, Fresh(o, files), []);
  }

  // ---------------------------------------------------------------- what reads return

  /** A read at or past the last sequence number returns the last write of the key, or nothing
      if that was a delete or there was none. */
  lemma ReadsLastWrite(o: Options, s: State, H: History, k: bytes, maxSeq: nat)
    requires Inv(o, s, H) && s.nextSeq <= maxSeq
    ensures ValueOf(FirstHit(AllSources(s), k, maxSeq)) == ValueOf(LastWrite(H, k))
  {
    hide *;
    InvIs(o, s, H);
    LiveIs(o, s, H);
    FaithfulReads(AllSources(s), H, k, maxSeq);
  }

  /** Reading memory and then only the candidate tables is reading every source. */
  lemma ProbesAllSources(o: Options, s: State, H: History, k: bytes, maxSeq: nat)
    requires Inv(o, s, H)
    ensures FirstHit(InMemory(s) + RunsOf(Candidates(o.fmt, s.levels, k)), k, maxSeq)
        == FirstHit(AllSources(s), k, maxSeq)
  {
    hide *;
    InvIs(o, s, H);
    LiveIs(o, s, H);
    FaithfulIs(AllSources(s), H);
    IncreasingUnique(H);
    AllSourcesIs(s);
    UnionSplit(InMemory(s), TableSources(s.levels));
    SubsetUnique(Union(TableSources(s.levels)), Contents(H));
    SoundParts(o.fmt, s.files, s.levels, s.nextFile);
    ProbeIsWalk(o.fmt, s.files, s.levels, k, maxSeq);
    FirstHitSplit(InMemory(s), RunsOf(Candidates(o.fmt, s.levels, k)), k, maxSeq);
    FirstHitSplit(InMemory(s), TableSources(s.levels), k, maxSeq);
  }

  lemma AllSourcesIs(s: State)
    ensures AllSources(s) == InMemory(s) + TableSources(s.levels)
  {
  }

  // ---------------------------------------------------------------- the version

  /** At every reachable state replaying the manifest gives exactly the version in memory, tables
      and order, and the same file counter, although flushes and compactions change the version
      by different code. */
  lemma ManifestAgrees(o: Options, s: State, H: History)
    requires Inv(o, s, H)
    ensures FromMetas(o.fmt, s.files, Replay(s.edits).files, o.maxLevels) == s.levels
    ensures AtLeastOne(Replay(s.edits).nextFileNum) == s.nextFile
  {
    hide *;
    InvIs(o, s, H);
    LiveIs(o, s, H);
    CataloguedIs(s);
    SoundParts(o.fmt, s.files, s.levels, s.nextFile);
    Rebuilt(o.fmt, s.files, Replay(s.edits).files, s.levels);
  }

  /** At every reachable state the key ranges in each level below L0 are disjoint and sorted, so
      the one table that `find_in_level` looks at is the only one that can hold the key. */
  lemma LevelsDisjoint(o: Options, s: State, H: History, l: nat, k: bytes, t: Table, r: Record)
    requires Inv(o, s, H) && 0 < l < |s.levels|
    ensures DisjointLevel(s.levels[l])
    ensures t in s.levels[l] && r in t.recs && r.ik.userKey == k ==> FindInLevel(s.levels[l], k) == Some(t)
  {
    hide *;
    InvIs(o, s, H);
    LiveIs(o, s, H);
    SoundParts(o.fmt, s.files, s.levels, s.nextFile);
    Releveling.LevelDisjoint(o.fmt, s.files, s.levels, l);
    forall i | 0 <= i < |s.levels[l]| ensures WellFormedTable(o.fmt, s.files, s.levels[l][i]) {
      Releveling.TableOf(o.fmt, s.files, s.levels, l, s.levels[l][i]);
    }
    if t in s.levels[l] && r in t.recs && r.ik.userKey == k { FoundHolds(o.fmt, s.files, s.levels[l], k, t, r); }
  }

  // ---------------------------------------------------------------- the abstract map

  /** The map the database stands for. */
  function Replayed(H: History): map<bytes, bytes> {
    if H == [] then map[]
    else
      var m, r := Replayed(H[..|H| - 1]), H[|H| - 1];
      if r.ik.kind == Put then m[r.ik.userKey := r.value] else m - {r.ik.userKey}
  }

  lemma {:induction false} ReplayedIsLastWrite(H: History, k: bytes)
    ensures ValueOf(LastWrite(H, k)) == if k in Replayed(H) then Some(Replayed(H)[k]) else None
  {
    if H != [] { ReplayedIsLastWrite(H[..|H| - 1], k); }
  }

  lemma {:induction false} RunEnds(o: Options, s: State, H: History, es: seq<Event>)
    requires Inv(o, s, H) && o.Usable() && |s.levels| == o.maxLevels && IsRun(o, s, H, es)
    requires o.fsync == Always || forall e :: e in es ==> !e.Crash?
    ensures EndOf(o, s, H, es).1 == H + AllAccepted(o, s, H, es)
    decreases |es|
  {
    hide *;
    if es == [] {
      EmptyRun(o, s, H);
      assert H + [] == H;
    } else {
      var e := es[0];
      RunStep(o, s, H, es);
      assert e in es && forall x :: x in es[1..] ==> x in es;
      var s', H', A := After(o, s, e), Recorded(o, s, H, e), Accepted(o, s, e);
      LosesNothing(o, s, H, e);
      RunEnds(o, s', H', es[1..]);
      assert H + A + AllAccepted(o, s', H', es[1..]) == H + (A + AllAccepted(o, s', H', es[1..]));
    }
  }

  lemma EmptyRun(o: Options, s: State, H: History)
    requires Inv(o, s, H) && o.Usable() && |s.levels| == o.maxLevels
    ensures IsRun(o, s, H, []) && EndOf(o, s, H, []) == (s, H) && AllAccepted(o, s, H, []) == []
  {
  }

  lemma RunStep(o: Options, s: State, H: History, es: seq<Event>)
    requires Inv(o, s, H) && o.Usable() && |s.levels| == o.maxLevels && IsRun(o, s, H, es) && es != []
    ensures CanHappen(o, s, es[0])
    ensures Inv(o, After(o, s, es[0]), Recorded(o, s, H, es[0])) && |After(o, s, es[0]).levels| == o.maxLevels
    ensures IsRun(o, After(o, s, es[0]), Recorded(o, s, H, es[0]), es[1..])
    ensures EndOf(o, s, H, es) == EndOf(o, After(o, s, es[0]), Recorded(o, s, H, es[0]), es[1..])
    ensures AllAccepted(o, s, H, es)
         == Accepted(o, s, es[0]) + AllAccepted(o, After(o, s, es[0]), Recorded(o, s, H, es[0]), es[1..])
  {
    hide Inv, CanHappen, After, Recorded, Accepted, Options.Usable;
    EventInv(o, s, H, es[0]);
  }

  /** In `Always` mode a crash loses no acknowledged write. */
  lemma LosesNothing(o: Options, s: State, H: History, e: Event)
    requires Inv(o, s, H) && o.Usable() && |s.levels| == o.maxLevels && CanHappen(o, s, e)
    requires o.fsync == Always || !e.Crash?
    ensures Recorded(o, s, H, e) == H + Accepted(o, s, e)
  {
    if e.Crash? {
      CanIs(o, s, e);
      ImageIs(s, e.kept, e.disk);
      InvIs(o, s, H);
      SafeIs(o, s, H);
      hide *;
      KeptIs(s.log, o.fsync);
      RecordedIs(o, s, H, e);
      OnDiskIs(s, H, e.kept);
      assert H[..|H|] == H && H + [] == H;
      NoneAccepted(o, s, e);
    }
  }

  lemma KeptIs(log: Log, fsync: FsyncMode)
    ensures log.Kept(fsync) <==>
            && log.durable <= |log.recs| && (fsync == Always ==> log.durable == |log.recs|)
            && (fsync == Batch ==> FramedBytes(log.recs[log.durable..]) == log.pending < BATCH_BYTES)
  {
  }

  lemma NoneAccepted(o: Options, s: State, e: Event)
    requires o.Usable() && |s.levels| == o.maxLevels && e.Crash?
    ensures Accepted(o, s, e) == []
  {
  }

  /** The events can happen one after the other, from the database in an empty directory. */
  ghost predicate Possible(o: Options, files: Files, es: seq<Event>)
    requires o.Usable()
  {
    FreshInv(o, files);
    IsRun(o, Fresh(o, files), [], es)
  }

  /** The state they lead to and the writes that are then part of the history. */
  ghost function Reached(o: Options, files: Files, es: seq<Event>): (end: (State, History))
    requires o.Usable() && Possible(o, files, es)
    ensures Inv(o, end.0, end.1) && |end.0.levels| == o.maxLevels
  {
    FreshInv(o, files);
    EndOf(o, Fresh(o, files), [], es)
  }

  /** The writes they accepted, whether or not a crash took some of them. */
  ghost function WritesOf(o: Options, files: Files, es: seq<Event>): History
    requires o.Usable() && Possible(o, files, es)
  {
    FreshInv(o, files);
    AllAccepted(o, Fresh(o, files), [], es)
  }

  lemma ReachedIs(o: Options, files: Files, es: seq<Event>)
    requires o.Usable() && Possible(o, files, es)
    ensures Inv(o, Fresh(o, files), []) && |Fresh(o, files).levels| == o.maxLevels && IsRun(o, Fresh(o, files), [], es)
    ensures Reached(o, files, es) == EndOf(o, Fresh(o, files), [], es)
    ensures WritesOf(o, files, es) == AllAccepted(o, Fresh(o, files), [], es)
  {
    hide Inv, IsRun, EndOf, AllAccepted, Fresh, Options.Usable;
    FreshInv(o, files);
  }

  /** The whole-run refinement: after any run without crashes (with `Always`, after any run at
      all, its crashes coming while the log is whole) reading a key gives what the map holds that
      results from applying the accepted writes in order, whatever flushes and compactions came in
      between. */
  lemma RunRefinesMap(o: Options, files: Files, es: seq<Event>, k: bytes, maxSeq: nat)
    requires o.Usable() && Possible(o, files, es) && Reached(o, files, es).0.nextSeq <= maxSeq
    requires o.fsync == Always || forall e :: e in es ==> !e.Crash?
    ensures Reached(o, files, es).1 == WritesOf(o, files, es)
    ensures var s, m := Reached(o, files, es).0, Replayed(WritesOf(o, files, es));
            ValueOf(FirstHit(AllSources(s), k, maxSeq)) == if k in m then Some(m[k]) else None
  {
    hide *;
    var all := WritesOf(o, files, es);
    ReachedIs(o, files, es);
    RunEnds(o, Fresh(o, files), [], es);
    assert [] + all == all;
    CrashConsistent(o, files, es, k, maxSeq);
  }

  // ---------------------------------------------------------------- what a crash can take

  lemma {:induction false} TailBytes(rs: seq<Record>, n: nat)
    requires n <= |rs|
    ensures FramedBytes(rs[n..]) <= FramedBytes(rs)
  {
    if rs == [] || n == |rs| {
      assert rs[n..] == [];
    } else {
      hide RecordBytes;
      var front := rs[..|rs| - 1];
      TailBytes(front, n);
      assert rs[n..][..|rs| - n - 1] == front[n..];
    }
  }

  /** What a crash takes is a suffix of the accepted writes; in `Batch` mode it is less than
      256 KiB of the log, in `Always` mode it is nothing. */
  lemma CrashTakesLittle(o: Options, s: State, H: History, e: Event)
    requires Inv(o, s, H) && o.Usable() && |s.levels| == o.maxLevels && CanHappen(o, s, e) && e.Crash?
    ensures Recorded(o, s, H, e) <= H
    ensures FramedBytes(H[|Recorded(o, s, H, e)|..]) < BATCH_BYTES
    ensures o.fsync == Always ==> Recorded(o, s, H, e) == H
  {
    hide *;
    CanIs(o, s, e);
    ImageIs(s, e.kept, e.disk);
    InvIs(o, s, H);
    SafeIs(o, s, H);
    LoggedIs(s, H);
    KeptIs(s.log, o.fsync);
    RecordedIs(o, s, H, e);
    OnDiskIs(s, H, e.kept);
    var f, w, d := Flushed(s, H), s.log.recs, s.log.durable;
    assert H[f + e.kept..] == H[f..][e.kept..] == w[e.kept..];
    TailBytes(w[d..], e.kept - d);
    assert w[d..][e.kept - d..] == w[e.kept..];
    if o.fsync == Always {
      assert w[e.kept..] == [];
      NoBytes();
    }
  }

  lemma NoBytes()
    ensures FramedBytes([]) == 0 < BATCH_BYTES
  {
  }

  /** After any run, crashes included, the database reads as the map that results from the
      writes still recorded; each crash took only what `CrashTakesLittle` allows. */
  lemma CrashConsistent(o: Options, files: Files, es: seq<Event>, k: bytes, maxSeq: nat)
    requires o.Usable() && Possible(o, files, es) && Reached(o, files, es).0.nextSeq <= maxSeq
    ensures var s, m := Reached(o, files, es).0, Replayed(Reached(o, files, es).1);
            ValueOf(FirstHit(AllSources(s), k, maxSeq)) == if k in m then Some(m[k]) else None
  {
    hide *;
    var end := Reached(o, files, es);
    ReadsLastWrite(o, end.0, end.1, k, maxSeq);
    ReplayedIsLastWrite(end.1, k);
  }

  // ---------------------------------------------------------------- crashes inside an event

  lemma WriteLog(o: Options, s: State, key: bytes, value: bytes, kind: ValueKind)
    requires |s.levels| >= 1 && !Stalled(o, s)
    ensures var s' := Engine.Write(o, s, key, value, kind);
            s'.log.recs == s.log.recs + [NewRecord(s, key, value, kind)] && s'.log.torn == s.log.torn
                && s'.edits == s.edits
                && s'.levels == s.levels && s'.files == s.files
  {
  }

  /** Power lost inside a write: however much of the grown log survives, cut inside a record or
      not, the disk is one that a crash just before or just after the write leaves. */
  lemma CrashInWrite(o: Options, s: State, H: History, key: bytes, value: bytes, kind: ValueKind, n: nat, torn: bool,
      files: Files)
    requires Inv(o, s, H) && |s.levels| >= 1 && o.fsync != Never && !Stalled(o, s) && KeepsLive(s, files)
    requires s.log.torn == None && s.log.durable <= n <= |s.log.recs| + 1
    ensures var d := Disk(Some(s.edits), Some((s.log.recs + [NewRecord(s, key, value, kind)])[..n]), torn, files);
            CrashImage(s, n, d) || CrashImage(Engine.Write(o, s, key, value, kind), n, d)
  {
    hide *;
    var s', r := Engine.Write(o, s, key, value, kind), NewRecord(s, key, value, kind);
    WriteLog(o, s, key, value, kind);
    WriteInv(o, s, H, key, value, kind);
    InvIs(o, s', H + [r]);
    SafeIs(o, s', H + [r]);
    KeptIs(s'.log, o.fsync);
    WholeIs(s.log);
    WholeIs(s'.log);
    if n <= |s.log.recs| {
      ImageFrom(s, n, s.log.recs + [r], torn, files);
    } else {
      KeepsLiveSame(s, s', files);
      ImageFrom(s', n, s.log.recs + [r], torn, files);
    }
  }

  lemma WholeIs(log: Log)
    ensures log.Whole() <==> log.torn == None || log.torn == Some(|log.recs|)
  {
  }

  lemma KeepsLiveSame(s: State, s': State, files: Files)
    requires KeepsLive(s, files) && s'.levels == s.levels && s'.files == s.files
    ensures KeepsLive(s', files)
  {
  }

  lemma ImageFrom(s: State, n: nat, w: seq<Record>, torn: bool, files: Files)
    requires s.log.Whole() && s.log.durable <= n <= |s.log.recs| && n <= |w| && w[..n] == s.log.recs[..n]
        && KeepsLive(s, files)
    ensures CrashImage(s, n, Disk(Some(s.edits), Some(w[..n]), torn, files))
  {
  }

  /** New files may be in any state, or not there yet: below the file counter nothing changed. */
  ghost predicate OldFilesIn(s: State, files: Files) {
    forall k :: k in s.files && k < s.nextFile ==> k in files && files[k] == s.files[k]
  }

  lemma OldFilesLive(o: Options, s: State, H: History, files: Files)
    requires Inv(o, s, H) && OldFilesIn(s, files)
    ensures KeepsLive(s, files)
  {
    hide *;
    InvIs(o, s, H);
    LiveIs(o, s, H);
    SoundFacts(o.fmt, s.files, s.levels, s.nextFile);
    OldFilesAre(s, files);
    KeepsLiveIs(s, files);
  }

  lemma OldFilesAre(s: State, files: Files)
    ensures OldFilesIn(s, files) <==> forall k :: k in s.files && k < s.nextFile ==> k in files && files[k] == s.files[k]
  {
  }

  /** Power lost inside a compaction. Before its edits are logged its outputs are files nobody
      lists, complete or not; afterwards, with any of the input files already removed, the disk is
      one that a crash just after the compaction leaves. */
  lemma CrashInCompaction(o: Options, s: State, H: History, job: Job, watermark: nat, n: nat, torn: bool, before: Files,
      gone: set<nat>)
    requires Inv(o, s, H) && Releveling.JobOf(s.levels, job) && s.log.Whole() && s.log.durable <= n <= |s.log.recs|
    requires OldFilesIn(s, before) && gone <= Obsolete(job)
    ensures var s', written := CompactJob(o, s, job, watermark), JobStep(o, s, job, watermark).NewFiles();
            && CrashImage(s, n, Disk(Some(s.edits), Some(s.log.recs[..n]), torn, before))
            && CrashImage(s, n, Disk(Some(s.edits), Some(s.log.recs[..n]), torn, written))
            && CrashImage(s', n, Disk(Some(s'.edits), Some(s.log.recs[..n]), torn, written - gone))
  {
    hide *;
    var s', step := CompactJob(o, s, job, watermark), JobStep(o, s, job, watermark);
    InvIs(o, s, H);
    LiveIs(o, s, H);
    JobStepGood(o, s, H, job, watermark);
    CompactFields(o, s, job, watermark);
    CompactedLevels.GoodParts(step);
    NewFilesIs(step);
    OldFilesLive(o, s, H, before);
    ImageOf(s, n, torn, before);
    forall k | k in s.files && k < s.nextFile ensures k in step.NewFiles() && step.NewFiles()[k] == s.files[k] {
      Releveling.WithTablesAt(o.fmt, s.files, step.added, s.nextFile, k);
    }
    OldFilesAre(s, step.NewFiles());
    OldFilesLive(o, s, H, step.NewFiles());
    ImageOf(s, n, torn, step.NewFiles());
    forall l: nat, t: Table | l < |s'.levels| && t in s'.levels[l] && t.num in s'.files
      ensures t.num in step.NewFiles() - gone && (step.NewFiles() - gone)[t.num] == s'.files[t.num] {
    }
    KeepsLiveIs(s', step.NewFiles() - gone);
    ImageOf(s', n, torn, step.NewFiles() - gone);
  }

  lemma NewFilesIs(s: CompactedLevels.Step)
    ensures s.NewFiles() == Releveling.WithTables(s.files, s.added)
  {
  }

  lemma ImageOf(s: State, n: nat, torn: bool, files: Files)
    requires s.log.Whole() && s.log.durable <= n <= |s.log.recs| && KeepsLive(s, files)
    ensures CrashImage(s, n, Disk(Some(s.edits), Some(s.log.recs[..n]), torn, files))
  {
  }

  /** Power lost inside a flush: the new file is nobody's until the edits are logged; after that
      the disk is what a crash after the flush leaves, and still is when the log is gone too. */
  lemma CrashInFlush(o: Options, s: State, H: History, n: nat, torn: bool, before: Files)
    requires Inv(o, s, H) && |s.levels| >= 1 && s.imms != [] && s.imms[0] != []
    requires s.log.Whole() && s.log.durable <= n <= |s.log.recs| && OldFilesIn(s, before)
    ensures var s' := FlushOldest(o, s);
            && CrashImage(s, n, Disk(Some(s.edits), Some(s.log.recs[..n]), torn, before))
            && CrashImage(s', n, Disk(Some(s'.edits), Some(s.log.recs[..n]), torn, s'.files))
            && CrashImage(RecreateLog(s'), 0, Disk(Some(s'.edits), None, false, s'.files))
            && CrashImage(RecreateLog(s'), 0, Disk(Some(s'.edits), Some([]), false, s'.files))
  {
    hide *;
    var s' := FlushOldest(o, s);
    FlushFields(o, s);
    OldFilesLive(o, s, H, before);
    ImageOf(s, n, torn, before);
    KeepsLiveIs(s', s'.files);
    ImageOf(s', n, torn, s'.files);
    NoLogImage(s');
  }

  lemma NoLogImage(s: State)
    ensures CrashImage(RecreateLog(s), 0, Disk(Some(s.edits), None, false, s.files))
    ensures CrashImage(RecreateLog(s), 0, Disk(Some(s.edits), Some([]), false, s.files))
  {
  }
}
