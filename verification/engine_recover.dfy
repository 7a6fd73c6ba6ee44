/** Crash and recovery (src/db.rs 50-108): any crash image of a state the invariant allows reopens
    to a prefix of the history, and the reopened state satisfies the invariant again. */
module EngineRecover {
  import opened ByteStrings
  import opened Records
  import opened Builder
  import opened WriteAheadLog
  import opened ManifestLog
  import opened Versions
  import opened Sources
  import opened Histories
  import opened EngineOptions
  import opened Releveling
  import opened CompactionSteps
  import opened Engine
  import opened EngineInvariant
  import EngineFlush
  import MemTables

  lemma RecoverableIs(o: Options, d: Disk, H: History)
    ensures var c, w := Replay(d.Edits()), d.Log();
            var levels := FromMetas(o.fmt, d.files, c.files, o.maxLevels);
            Recoverable(o, d, H) <==>
            && SameFiles(c.files, levels) && Sound(o.fmt, d.files, levels, AtLeastOne(c.nextFileNum))
            && Increasing(H) && |w| <= |H| && H[|H| - |w|..] == w
            && (forall r :: r in H[..|H| - |w|] ==> r.ik.seqno <= c.lastSeq)
            && Faithful([Contents(w)] + TableSources(levels), H)
  {
  }

  // ---------------------------------------------------------------- replaying the log

  lemma {:induction false} MaxSeqBounds(from: nat, rs: seq<Record>)
    ensures from <= MaxSeqFrom(from, rs)
    ensures forall r :: r in rs ==> r.ik.seqno <= MaxSeqFrom(from, rs)
    ensures MaxSeqFrom(from, rs) == from || exists r :: r in rs && r.ik.seqno == MaxSeqFrom(from, rs)
  {
    if rs != [] {
      var front, last := rs[..|rs| - 1], rs[|rs| - 1];
      MaxSeqBounds(from, front);
      assert rs == front + [last];
    }
  }

  /** Replaying the log rebuilds a sorted memtable with exactly its records. */
  lemma {:induction false} ReplayedMem(w: seq<Record>)
    requires Increasing(w)
    ensures Sorted(MemTables.InsertedAll([], w)) && Contents(MemTables.InsertedAll([], w)) == Contents(w)
  {
    if w == [] {
      NothingSorted();
    } else {
      hide *;
      var front, last := w[..|w| - 1], w[|w| - 1];
      assert w == front + [last];
      IncreasingPrefix(front, last);
      ReplayedMem(front);
      InsertedAllStep(w);
      forall q | q in MemTables.InsertedAll([], front) ensures q.ik != last.ik {
        ContentsHas(MemTables.InsertedAll([], front), q);
        ContentsHas(front, q);
        NewerThan(front, last, q);
      }
      MemTables.InsertedFresh(MemTables.InsertedAll([], front), last);
      ContentsAppend(front, last);
    }
  }

  lemma InsertedAllStep(w: seq<Record>)
    requires w != []
    ensures MemTables.InsertedAll([], w) == MemTables.Inserted(MemTables.InsertedAll([], w[..|w| - 1]), w[|w| - 1])
  {
  }

  lemma NewerThan(H: History, r: Record, q: Record)
    requires NewerThanAll(H, r) && q in H
    ensures q.ik.seqno < r.ik.seqno
  {
  }

  lemma IncreasingDrop(H: History, n: nat)
    requires Increasing(H) && n <= |H|
    ensures Increasing(H[n..])
  {
  }

  // ---------------------------------------------------------------- opening

  lemma OpenFields(o: Options, d: Disk)
    ensures var s, c, w := Open(o, d), Replay(d.Edits()), d.Log();
            && s.mem == MemTables.InsertedAll([], w) && s.imms == []
            && s.levels == FromMetas(o.fmt, d.files, c.files, o.maxLevels) && |s.levels| == o.maxLevels
                && s.files == d.files
            && s.log == Log(w, |w|, 0, d.TornAt())
            && s.nextSeq == MaxSeqFrom(c.lastSeq, w) && s.nextFile == AtLeastOne(c.nextFileNum)
            && s.edits == (if d.manifest.Some? then d.Edits() else [SetNextFileNum(s.nextFile), SetLastSeq(s.nextSeq)])
            && (d.manifest.None? ==> d.Edits() == [])
  {
    hide FromMetas, MemTables.InsertedAll, MaxSeqFrom, Replay, MemTables.CostOf;
  }

  lemma FirstEdits(n: nat, q: nat)
    ensures Replay([SetNextFileNum(n), SetLastSeq(q)]) == Catalog([], n, q)
    ensures Replay([]) == Catalog([], 0, 0)
  {
    var a, b := SetNextFileNum(n), SetLastSeq(q);
    ApplySplit(EmptyCatalog, [a], [b]);
    ApplyOne(EmptyCatalog, a);
    ApplyOne(Applied(EmptyCatalog, a), b);
    assert [a] + [b] == [a, b];
  }

  /** The catalog after opening, whether the manifest was there or has just been created. */
  lemma OpenCatalog(o: Options, d: Disk)
    ensures Replay(Open(o, d).edits).files == Replay(d.Edits()).files
    ensures AtLeastOne(Replay(Open(o, d).edits).nextFileNum) == Open(o, d).nextFile
    ensures Replay(d.Edits()).lastSeq <= Replay(Open(o, d).edits).lastSeq <= Open(o, d).nextSeq
  {
    hide *;
    var s := Open(o, d);
    OpenFields(o, d);
    FirstEdits(s.nextFile, s.nextSeq);
    MaxSeqBounds(Replay(d.Edits()).lastSeq, d.Log());
    AtLeastOneTwice(Replay(d.Edits()).nextFileNum);
    if d.manifest.Some? {
      assert s.edits == d.Edits();
    } else {
      assert Replay(s.edits) == Catalog([], s.nextFile, s.nextSeq);
      assert Replay(d.Edits()) == Catalog([], 0, 0);
    }
  }

  /** The counters after opening: the greatest number the manifest or a log record names, and the
      manifest's file counter, at least 1. The memtable counts what its records count. */
  lemma OpenCounters(o: Options, d: Disk)
    ensures var s, c := Open(o, d), Replay(d.Edits());
            && c.lastSeq <= s.nextSeq && (forall r :: r in d.Log() ==> r.ik.seqno <= s.nextSeq)
            && (s.nextSeq == c.lastSeq || exists r :: r in d.Log() && r.ik.seqno == s.nextSeq)
            && s.nextFile == (if c.nextFileNum < 1 then 1 else c.nextFileNum)
            && s.memBytes == MemTables.CostOf(d.Log())
  {
    hide FromMetas, MemTables.InsertedAll, MaxSeqFrom, Replay, MemTables.CostOf;
    MaxSeqBounds(Replay(d.Edits()).lastSeq, d.Log());
  }

  lemma AtLeastOneTwice(n: nat)
    ensures AtLeastOne(AtLeastOne(n)) == AtLeastOne(n)
  {
  }

  lemma OpenLive(o: Options, d: Disk, H: History)
    requires Recoverable(o, d, H)
    ensures Live(o, Open(o, d), H)
  {
    hide *;
    var s, w := Open(o, d), d.Log();
    RecoverableIs(o, d, H);
    OpenFields(o, d);
    IncreasingDrop(H, |H| - |w|);
    ReplayedMem(w);
    MaxSeqBounds(Replay(d.Edits()).lastSeq, w);
    forall r | r in H ensures r.ik.seqno <= s.nextSeq { SplitAt(H, |H| - |w|, r); }
    SourcesIs(s);
    EngineFlush.NoFrozen();
    var none: seq<Source> := [];
    assert [Contents(s.mem)] + none == [Contents(s.mem)];
    LiveIs(o, s, H);
  }

  lemma SplitAt(H: History, n: nat, r: Record)
    requires n <= |H| && r in H
    ensures r in H[..n] || r in H[n..]
  {
    assert H == H[..n] + H[n..];
  }

  /** Opening a recoverable disk gives a state that satisfies the invariant for its history. */
  lemma OpenInv(o: Options, d: Disk, H: History)
    requires Recoverable(o, d, H)
    ensures Inv(o, Open(o, d), H)
  {
    hide *;
    var s, w := Open(o, d), d.Log();
    RecoverableIs(o, d, H);
    OpenFields(o, d);
    OpenLive(o, d, H);
    OpenCatalog(o, d);
    CataloguedIs(s);
    LoggedIs(s, H);
    IncreasingDrop(H, |H| - |w|);
    ReplayedMem(w);
    ReopensIs(s, H);
    OpenSafe(o, s, H);
    InvIs(o, s, H);
  }

  lemma OpenSafe(o: Options, s: State, H: History)
    requires s.log == Log(s.log.recs, |s.log.recs|, 0, s.log.torn) && s.imms == [] && 0 <= Flushed(s, H)
    requires Faithful([Contents(s.log.recs)] + TableSources(s.levels), H)
    ensures Safe(o, s, H)
  {
    var w := s.log.recs;
    assert w[..|w|] == w && w[|w|..] == [];
    assert H[..|H| - |w| + |w|] == H;
    hide Faithful, TableSources;
  }

  // ---------------------------------------------------------------- crashes

  /** The files of live tables, whatever else is or is not in the directory: half-written
      outputs, files already or not yet removed. */
  ghost predicate KeepsLive(s: State, files: Files) {
    forall l: nat, t :: l < |s.levels| && t in s.levels[l] && t.num in s.files ==> t.num in files && files[t.num] == s.files[t.num]
  }

  /** What a crash may leave: the manifest, the durable part of the log and perhaps some of the
      rest, with or without bytes of a torn record behind it, and the live files. A log with
      records behind torn bytes may leave anything (`KeptLog`, `LostBehindTorn`). */
  ghost predicate CrashImage(s: State, n: nat, d: Disk) {
    && s.log.Whole() && s.log.durable <= n <= |s.log.recs|
    && d.manifest == Some(s.edits)
    && (d.wal == Some(s.log.recs[..n]) || (d.wal == None && n == 0))
    && KeepsLive(s, d.files)
  }

  lemma ImageLevels(o: Options, s: State, H: History, d: Disk)
    requires Live(o, s, H) && Catalogued(s) && d.manifest == Some(s.edits) && KeepsLive(s, d.files)
    ensures FromMetas(o.fmt, d.files, Replay(d.Edits()).files, o.maxLevels) == s.levels
    ensures Sound(o.fmt, d.files, s.levels, s.nextFile) && d.Edits() == s.edits
  {
    hide *;
    LiveIs(o, s, H);
    CataloguedIs(s);
    KeepsLiveIs(s, d.files);
    EditsIs(d);
    EngineFlush.SoundElsewhere(o.fmt, s.files, d.files, s.levels, s.nextFile, s.nextFile);
    SoundParts(o.fmt, d.files, s.levels, s.nextFile);
    Rebuilt(o.fmt, d.files, Replay(s.edits).files, s.levels);
  }

  lemma KeepsLiveIs(s: State, files: Files)
    ensures KeepsLive(s, files) <==>
            forall l: nat, t :: l < |s.levels| && t in s.levels[l] && t.num in s.files ==> t.num in files && files[t.num] == s.files[t.num]
  {
  }

  lemma EditsIs(d: Disk)
    ensures d.manifest.Some? ==> d.Edits() == d.manifest.value
    ensures d.manifest.None? ==> d.Edits() == []
    ensures d.wal.Some? ==> d.Log() == d.wal.value
    ensures d.wal.None? ==> d.Log() == []
  {
  }

  lemma ImageIs(s: State, n: nat, d: Disk)
    requires CrashImage(s, n, d)
    ensures s.log.Whole() && s.log.durable <= n <= |s.log.recs|
    ensures d.manifest == Some(s.edits) && d.Log() == s.log.recs[..n] && KeepsLive(s, d.files)
  {
  }

  /** After a crash the history is cut exactly where the log was; nothing before that is lost. */
  lemma CrashRecovers(o: Options, s: State, H: History, n: nat, d: Disk)
    requires Inv(o, s, H) && o.fsync != Never && CrashImage(s, n, d)
    ensures 0 <= Flushed(s, H) && n <= |s.log.recs| && Recoverable(o, d, Remaining(s, H, n))
  {
    hide *;
    ImageIs(s, n, d);
    InvIs(o, s, H);
    LiveIs(o, s, H);
    LoggedIs(s, H);
    CataloguedIs(s);
    ImageLevels(o, s, H, d);
    SafeAdvance(o, s, H, n);
    OnDiskIs(s, H, n);
    var f, w := |H| - |s.log.recs|, s.log.recs;
    var H' := Remaining(s, H, n);
    IncreasingTake(H, f + n);
    assert |H'| - |d.Log()| == f;
    assert H'[f..] == H[f..][..n];
    assert H'[..f] == H[..f];
    RecoverableIs(o, d, H');
  }

  /** What an orderly `close` leaves: everything. A log with records behind torn bytes is not read
      back as it was written (`KeptLog`). */
  ghost predicate ClosedImage(s: State, d: Disk) {
    && s.log.Whole()
    && d.manifest == Some(s.edits)
    && (d.wal == Some(s.log.recs) || (d.wal == None && s.log.recs == []))
    && KeepsLive(s, d.files)
  }

  lemma ClosedIs(s: State, d: Disk)
    requires ClosedImage(s, d)
    ensures s.log.Whole() && d.manifest == Some(s.edits) && d.Log() == s.log.recs && KeepsLive(s, d.files)
  {
  }

  /** Closed and opened again the database has its whole history, in every fsync mode. */
  lemma RestartRecovers(o: Options, s: State, H: History, d: Disk)
    requires Inv(o, s, H) && ClosedImage(s, d)
    ensures Recoverable(o, d, H)
  {
    hide *;
    ClosedIs(s, d);
    InvIs(o, s, H);
    LiveIs(o, s, H);
    LoggedIs(s, H);
    CataloguedIs(s);
    ReopensIs(s, H);
    ImageLevels(o, s, H, d);
    RecoverableIs(o, d, H);
  }

  /** Recovery itself can be cut short: an empty log or manifest may have been created already.
      The disk still holds the same history. */
  lemma OpenInterrupted(o: Options, d: Disk, H: History)
    requires Recoverable(o, d, H)
    ensures Recoverable(o, Disk(d.manifest, Some(d.Log()), d.TornAt().Some?, d.files), H)
    ensures d.manifest.None? ==> Recoverable(o, Disk(Some([]), Some(d.Log()), d.TornAt().Some?, d.files), H)
  {
    hide *;
    var d1 := Disk(d.manifest, Some(d.Log()), d.TornAt().Some?, d.files);
    var d2 := Disk(Some([]), Some(d.Log()), d.TornAt().Some?, d.files);
    EditsIs(d);
    EditsIs(d1);
    EditsIs(d2);
    RecoverableIs(o, d, H);
    RecoverableIs(o, d1, H);
    RecoverableIs(o, d2, H);
  }

  // ---------------------------------------------------------------- the empty database

  lemma {:induction false} NoLevels(fmt: Format, files: Files, n: nat)
    ensures |FromMetas(fmt, files, [], n)| == n
    ensures forall l :: 0 <= l < n ==> FromMetas(fmt, files, [], n)[l] == []
  {
  }

  lemma {:induction false} EmptyDeep(levels: Levels)
    requires forall l :: 0 <= l < |levels| ==> levels[l] == []
    ensures forall i :: 0 <= i < |levels| ==> DeepSources(levels)[i] == {}
  {
    if levels != [] {
      assert forall l :: 0 <= l < |levels[1..]| ==> levels[1..][l] == levels[l + 1] == [];
      EmptyDeep(levels[1..]);
    }
  }

  lemma NothingFaithful(ss: seq<Source>)
    requires forall i :: 0 <= i < |ss| ==> ss[i] == {}
    ensures Faithful(ss, [])
  {
    forall r | r in Union(ss) ensures false { UnionMembers(ss, r); }
    assert forall k :: LastWrite([], k) == None;
  }

  /** A directory without manifest and log holds the empty history, whatever files lie in it. */
  lemma EmptyRecoverable(o: Options, files: Files)
    ensures Recoverable(o, Disk(None, None, false, files), [])
  {
    var d := Disk(None, None, false, files);
    FirstEdits(0, 0);
    NoLevels(o.fmt, files, o.maxLevels);
    var levels := FromMetas(o.fmt, files, [], o.maxLevels);
    EmptyLevelsSound(o.fmt, files, levels, 1);
    EmptySources(levels);
    RecoverableIs(o, d, []);
    hide Recoverable, Sound, SameFiles, FromMetas, TableSources, Faithful, LastWrite;
    assert d.Edits() == [] && d.Log() == [];
  }

  lemma EmptyLevelsSound(fmt: Format, files: Files, levels: Levels, next: nat)
    requires forall l :: 0 <= l < |levels| ==> levels[l] == []
    ensures Sound(fmt, files, levels, next) && SameFiles([], levels)
  {
  }

  lemma EmptySources(levels: Levels)
    requires forall l :: 0 <= l < |levels| ==> levels[l] == []
    ensures Faithful([Contents([])] + TableSources(levels), [])
  {
    var ss := [Contents([])] + TableSources(levels);
    if levels != [] {
      assert forall l :: 0 <= l < |levels[1..]| ==> levels[1..][l] == levels[l + 1] == [];
      EmptyDeep(levels[1..]);
      assert L0Sources(levels[0]) == [];
    }
    NothingFaithful(ss);
  }
}
