/** What reopening a log with torn bytes costs the database (src/wal.rs 35-45). */
module LogCrashes {
  import opened ByteStrings
  import opened Keys
  import opened Records
  import opened Bloom
  import opened Framing
  import opened WriteAheadLog
  import opened ManifestLog
  import opened Versions
  import opened Sources
  import opened Histories
  import opened EngineOptions
  import opened Engine
  import opened EngineInvariant
  import opened EngineRecover
  import Runs
  import Snapshots

  /** At every state of the invariant whose log was reopened with one to three torn bytes and has
      nothing behind them yet: the next accepted write of moderate size, synced as it is in `Always`
      mode, is not in what recovery reads of the log file, and opening the database gives back the
      history without it. */
  lemma AcceptedLost(o: Options, s: State, H: History, key: bytes, value: bytes, kind: ValueKind, tail: bytes, r0: Record,
      files: Files)
    requires Inv(o, s, H) && |s.levels| >= 1 && !Stalled(o, s) && KeepsLive(s, files)
    requires s.log.torn == Some(|s.log.recs|) && (forall q :: q in s.log.recs ==> FitsRecord(q)) && FitsRecord(r0)
    requires 1 <= |tail| < 4 && tail == Frame(o.fmt.hash, RecordBytes(r0))[..|tail|]
    requires |RecordBytes(NewRecord(s, key, value, kind))| < Pow256(4 - |tail|)
    ensures var s', r := Engine.Write(o, s, key, value, kind), NewRecord(s, key, value, kind);
            var file := LogBytes(o.fmt.hash, s.log.recs) + tail + LogBytes(o.fmt.hash, [r]);
            && Inv(o, s', H + [r]) && s'.log.recs == s.log.recs + [r]
            && (o.fsync == Always ==> s'.log.durable == |s'.log.recs|)
            && FileHolds(o.fmt.hash, s'.log, tail, file) && Recovered(o.fmt.hash, file) == Ok(s.log.recs)
            && Recoverable(o, Disk(Some(s'.edits), Some(s.log.recs), true, files), H)
  {
    hide *;
    var s', r := Engine.Write(o, s, key, value, kind), NewRecord(s, key, value, kind);
    var d := Disk(Some(s.edits), Some(s.log.recs), true, files);
    WriteInv(o, s, H, key, value, kind);
    Runs.WriteLog(o, s, key, value, kind);
    if o.fsync == Always {
      InvIs(o, s', H + [r]);
      SafeIs(o, s', H + [r]);
      Runs.KeptIs(s'.log, o.fsync);
    }
    LostBehindTorn(o.fmt.hash, s.log.recs, tail, r0, r);
    TornFileHolds(o.fmt.hash, s.log, s'.log, tail, r);
    WholeHere(s, d);
    RestartRecovers(o, s, H, d);
  }

  lemma WholeHere(s: State, d: Disk)
    requires s.log.torn == Some(|s.log.recs|) && KeepsLive(s, d.files)
    requires d == Disk(Some(s.edits), Some(s.log.recs), true, d.files)
    ensures ClosedImage(s, d)
  {
  }

  lemma TornFileHolds(hash: Hash, log: Log, log': Log, tail: bytes, r: Record)
    requires log.torn == Some(|log.recs|) && |tail| < 8 && log'.recs == log.recs + [r] && log'.torn == log.torn
    ensures FileHolds(hash, log', tail, LogBytes(hash, log.recs) + tail + LogBytes(hash, [r]))
  {
    hide LogBytes;
    assert log'.recs[..|log.recs|] == log.recs && log'.recs[|log.recs|..] == [r];
  }

  /** And a run that gets there: the first append of a fresh database is torn by a crash; after
      reopening, a write is acknowledged and synced; the database reads it; opened again it does
      not. For every key and value of moderate size. */
  lemma LostAfterRun(o: Options, files: Files, k: bytes, v: bytes) returns (es: seq<Runs.Event>, tail: bytes, d: Disk)
    requires o.Usable() && o.fsync == Always && |k| + |v| + 21 < Pow256(3)
    ensures |es| == 2 && es[0].Crash? && es[0].disk.torn && es[1] == Runs.Event.Write(k, v, Put)
    ensures Runs.Possible(o, files, es) && |tail| == 1
    ensures var s, r := Runs.Reached(o, files, es).0, Record(InternalKey(k, 1, Put), v);
            && Runs.Reached(o, files, es).1 == [r] && s.log.recs == [r] && s.log.durable == 1
            && (forall maxSeq :: s.nextSeq <= maxSeq ==> ValueOf(FirstHit(AllSources(s), k, maxSeq)) == Some(v))
            && FileHolds(o.fmt.hash, s.log, tail, tail + LogBytes(o.fmt.hash, [r]))
            && Recovered(o.fmt.hash, tail + LogBytes(o.fmt.hash, [r])) == Ok(d.Log())
            && d.manifest == Some(s.edits) && d.files == s.files
    ensures forall maxSeq :: FirstHit(AllSources(Open(o, d)), k, maxSeq) == None
  {
    hide *;
    var s0, e := Runs.Fresh(o, files), Runs.Event.Write(k, v, Put);
    var r := Record(InternalKey(k, 1, Put), v);
    Snapshots.FreshFields(o, files);
    FreshLog(o, files);
    Snapshots.Start(o, files);
    var c := Runs.Crash(0, Disk(Some(s0.edits), Some([]), true, s0.files));
    TornFirst(o, files);
    Snapshots.Next(o, files, [], s0, [], c);
    var s1 := Open(o, c.disk);
    assert [] + [c] == [c] && [c] + [e] == [c, e];
    Calm(o, s1);
    CanWrite(o, s1, k, v);
    Snapshots.Next(o, files, [c], s1, [], e);
    var s2 := Engine.Write(o, s1, k, v, Put);
    assert [] + [r] == [r];
    es, tail, d := [c, e], Frame(o.fmt.hash, RecordBytes(r))[..1], Disk(Some(s2.edits), Some([]), true, s2.files);
    Snapshots.LeadsIs(o, files, es, s2, [r]);
    SmallRecord(r);
    KeepsLiveIs(s1, s1.files);
    ThreeBytes();
    Runs.WriteLog(o, s1, k, v, Put);
    AcceptedLost(o, s1, [], k, v, Put, tail, r, s1.files);
    NoLogBytes(o.fmt.hash);
    assert [] + tail == tail;
    EditsIs(d);
    forall maxSeq | s2.nextSeq <= maxSeq ensures ValueOf(FirstHit(AllSources(s2), k, maxSeq)) == Some(v) {
      Runs.ReadsLastWrite(o, s2, [r], k, maxSeq);
      LastOne(r);
    }
    OpenInv(o, d, []);
    forall maxSeq ensures FirstHit(AllSources(Open(o, d)), k, maxSeq) == None {
      NothingThere(o, Open(o, d), k, maxSeq);
    }
  }

  lemma FreshLog(o: Options, files: Files)
    requires o.Usable()
    ensures var s := Runs.Fresh(o, files);
            && s.log == Log([], 0, 0, None) && s.files == files
            && s.edits == [SetNextFileNum(s.nextFile), SetLastSeq(0)]
  {
    hide *;
    Snapshots.FreshFields(o, files);
    var d := Disk(None, None, false, files);
    FreshIs(o, files);
    OpenFields(o, d);
    EditsIs(d);
    NoTear(d);
  }

  lemma FreshIs(o: Options, files: Files)
    ensures Runs.Fresh(o, files) == Open(o, Disk(None, None, false, files))
  {
  }

  lemma NoTear(d: Disk)
    ensures d.wal.None? ==> d.TornAt() == None
    ensures d.wal.Some? && d.torn ==> d.TornAt() == Some(|d.wal.value|)
  {
  }

  /** The first append is torn: nothing of it counts, but bytes of it are there. */
  lemma TornFirst(o: Options, files: Files)
    requires o.Usable() && o.fsync == Always
    ensures var s0 := Runs.Fresh(o, files);
            var c := Runs.Crash(0, Disk(Some(s0.edits), Some([]), true, s0.files));
            var s1 := Open(o, c.disk);
            && |s0.levels| == o.maxLevels && Runs.CanHappen(o, s0, c)
            && Runs.After(o, s0, c) == s1 && Runs.Recorded(o, s0, [], c) == []
            && s1.log == Log([], 0, 0, Some(0)) && s1.nextSeq == 0 && s1.imms == [] && s1.files == s0.files
            && |s1.levels| == o.maxLevels >= 2 && s1.levels[0] == []
  {
    hide *;
    var s0 := Runs.Fresh(o, files);
    Snapshots.FreshFields(o, files);
    FreshLog(o, files);
    var d := Disk(Some(s0.edits), Some([]), true, s0.files);
    KeepsLiveIs(s0, s0.files);
    CrashHere(o, s0, d);
    OpenFields(o, d);
    EditsIs(d);
    NoTear(d);
    FirstEdits(s0.nextFile, 0);
    NoLevels(o.fmt, s0.files, o.maxLevels);
    NoSeqs();
  }

  lemma CrashHere(o: Options, s: State, d: Disk)
    requires o.Usable() && |s.levels| == o.maxLevels && o.fsync == Always && s.log == Log([], 0, 0, None)
    requires d == Disk(Some(s.edits), Some([]), true, s.files) && KeepsLive(s, s.files)
    ensures var c := Runs.Crash(0, d);
            Runs.CanHappen(o, s, c) && Runs.After(o, s, c) == Open(o, d) && Runs.Recorded(o, s, [], c) == []
  {
    hide Open;
  }

  lemma NoSeqs()
    ensures MaxSeqFrom(0, []) == 0
  {
  }

  lemma Calm(o: Options, s: State)
    requires o.Usable() && |s.levels| >= 1
    ensures s.imms == [] && s.levels[0] == [] ==> !Stalled(o, s)
  {
  }

  lemma CanWrite(o: Options, s: State, k: bytes, v: bytes)
    requires o.Usable() && |s.levels| == o.maxLevels
    ensures var e := Runs.Event.Write(k, v, Put);
            && Runs.CanHappen(o, s, e) && |s.levels| >= 1 && Runs.After(o, s, e) == Engine.Write(o, s, k, v, Put)
            && forall H :: !Stalled(o, s) ==> Runs.Recorded(o, s, H, e) == H + [NewRecord(s, k, v, Put)]
    ensures s.nextSeq == 0 ==> NewRecord(s, k, v, Put) == Record(InternalKey(k, 1, Put), v)
  {
    hide Engine.Write;
  }

  lemma SmallRecord(r: Record)
    requires |r.ik.userKey| + |r.value| + 21 < Pow256(3) && r.ik.seqno == 1
    ensures |RecordBytes(r)| < Pow256(3) && FitsRecord(r)
  {
    RecordFields(r);
    assert Pow256(2) == 256 * Pow256(1);
    assert Pow256(3) == 256 * Pow256(2);
  }

  lemma LastOne(r: Record)
    ensures LastWrite([r], r.ik.userKey) == Some(r) && (r.ik.kind == Put ==> ValueOf(Some(r)) == Some(r.value))
  {
  }

  lemma NothingThere(o: Options, s: State, k: bytes, maxSeq: nat)
    requires Inv(o, s, [])
    ensures FirstHit(AllSources(s), k, maxSeq) == None
  {
    hide *;
    Snapshots.ReadIsNewest(o, s, [], k, maxSeq);
    InvIs(o, s, []);
    LiveIs(o, s, []);
    FaithfulIs(AllSources(s), []);
    NothingSorted();
    NewestNone(Union(AllSources(s)), k, maxSeq);
  }
}
