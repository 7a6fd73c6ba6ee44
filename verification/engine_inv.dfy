/** Every step of the engine, and recovery, keeps its invariant. */
module EngineInvariant {
  import opened ByteStrings
  import opened Keys
  import opened Records
  import opened WriteAheadLog
  import opened ManifestLog
  import opened Versions
  import opened Sources
  import opened Histories
  import opened EngineOptions
  import opened Engine
  import MemTables
  import Releveling

  // ---------------------------------------------------------------- reading the predicates

  // The proofs below hide every definition; these lemmas open one definition each.

  lemma InvIs(o: Options, s: State, H: History)
    ensures Inv(o, s, H) <==>
            Live(o, s, H) && Catalogued(s) && Logged(s, H) && Reopens(s, H) && (o.fsync != Never ==> Safe(o, s, H))
  {
  }

  lemma ReopensIs(s: State, H: History)
    ensures Reopens(s, H) <==> Faithful([Contents(s.log.recs)] + TableSources(s.levels), H)
  {
  }

  lemma LiveIs(o: Options, s: State, H: History)
    ensures Live(o, s, H) <==>
            && |s.levels| == o.maxLevels && Increasing(H) && (forall r :: r in H ==> r.ik.seqno <= s.nextSeq)
            && Sorted(s.mem) && (forall m :: m in s.imms ==> Sorted(m))
            && Faithful(AllSources(s), H) && Releveling.Sound(o.fmt, s.files, s.levels, s.nextFile)
  {
  }

  lemma LoggedIs(s: State, H: History)
    ensures Flushed(s, H) == |H| - |s.log.recs|
    ensures Logged(s, H) <==>
            && 0 <= Flushed(s, H) && H[Flushed(s, H)..] == s.log.recs
            && (forall r :: r in H[..Flushed(s, H)] ==> r.ik.seqno <= Replay(s.edits).lastSeq)
            && Contents(s.mem) <= Contents(s.log.recs)
            && (forall m :: m in s.imms ==> Contents(m) <= Contents(s.log.recs))
  {
  }

  lemma CataloguedIs(s: State)
    ensures Catalogued(s) <==> SameFiles(Replay(s.edits).files, s.levels)
                               && AtLeastOne(Replay(s.edits).nextFileNum) == s.nextFile
                                   && Replay(s.edits).lastSeq <= s.nextSeq
  {
  }

  lemma SafeIs(o: Options, s: State, H: History)
    ensures s.log.Kept(o.fsync) ==> s.log.durable <= |s.log.recs|
    ensures Safe(o, s, H) <==>
            && s.log.Kept(o.fsync) && 0 <= Flushed(s, H)
            && (forall m :: m in s.imms ==> Contents(m) <= Contents(s.log.recs[..s.log.durable]))
            && Faithful(OnDisk(s, s.log.durable), Remaining(s, H, s.log.durable))
  {
  }

  lemma SourcesIs(s: State)
    ensures AllSources(s) == [Contents(s.mem)] + Frozen(s.imms) + TableSources(s.levels)
    ensures AllSources(s)[0] == Contents(s.mem) && AllSources(s)[1..] == Frozen(s.imms) + TableSources(s.levels)
  {
  }

  lemma InMemoryIs(s: State)
    ensures InMemory(s) == [Contents(s.mem)] + Frozen(s.imms) && InMemory(s)[1..] == Frozen(s.imms)
  {
  }

  lemma OnDiskIs(s: State, H: History, n: nat)
    requires n <= |s.log.recs| && 0 <= Flushed(s, H)
    ensures OnDisk(s, n) == [Contents(s.log.recs[..n])] + TableSources(s.levels)
    ensures Remaining(s, H, n) == H[..|H| - |s.log.recs| + n]
  {
  }

  lemma FaithfulIs(ss: seq<Source>, H: History)
    requires Faithful(ss, H)
    ensures Ordered(ss) && Union(ss) <= Contents(H)
  {
  }

  // ---------------------------------------------------------------- keeping more of the log

  /** What holds of a disk with `d` log records holds of one with more. */
  lemma DiskAdvance(T: seq<Source>, w: seq<Record>, H: History, d: nat, n: nat)
    requires |w| <= |H| && H[|H| - |w|..] == w && Increasing(H) && d <= n <= |w|
    requires Faithful([Contents(w[..d])] + T, H[..|H| - |w| + d])
    ensures Faithful([Contents(w[..n])] + T, H[..|H| - |w| + n])
  {
    hide *;
    var f := |H| - |w|;
    var more, ss := w[d..n], [Contents(w[..d])] + T;
    assert H[..f + d] + more == H[..f + n] by { assert H[f..][d..n] == H[f + d..f + n]; }
    IncreasingTake(H, f + n);
    ContentsJoin(w[..d], more);
    assert w[..d] + more == w[..n];
    WritesKeepFaith(ss, H[..f + d], more);
  }

  lemma IncreasingTake(H: History, n: nat)
    requires Increasing(H) && n <= |H|
    ensures Increasing(H[..n])
  {
  }

  lemma ContentsJoin(a: seq<Record>, b: seq<Record>)
    ensures Contents(a + b) == Contents(a) + Contents(b)
  {
  }

  lemma SafeAdvance(o: Options, s: State, H: History, n: nat)
    requires Live(o, s, H) && Logged(s, H) && Safe(o, s, H) && s.log.durable <= n <= |s.log.recs|
    ensures Faithful(OnDisk(s, n), Remaining(s, H, n))
  {
    hide *;
    LiveIs(o, s, H);
    LoggedIs(s, H);
    SafeIs(o, s, H);
    OnDiskIs(s, H, n);
    OnDiskIs(s, H, s.log.durable);
    DiskAdvance(TableSources(s.levels), s.log.recs, H, s.log.durable, n);
  }

  // ---------------------------------------------------------------- writes

  lemma MemInHistory(s: State, H: History, r: Record)
    requires Faithful(AllSources(s), H) && r in s.mem
    ensures r in H
  {
    hide *;
    FaithfulIs(AllSources(s), H);
    SourcesIs(s);
    ContentsHas(s.mem, r);
    ContentsHas(H, r);
    UnionMembers(AllSources(s), r);
  }

  /** `r` is the next write. */
  predicate IsNext(s: State, r: Record) {
    r.ik.seqno == s.nextSeq + 1
  }

  lemma NewerIs(H: History, r: Record)
    requires forall q :: q in H ==> q.ik.seqno < r.ik.seqno
    ensures NewerThanAll(H, r)
  {
  }

  lemma AppendFields(o: Options, s: State, r: Record)
    ensures var s' := AppendRecord(o, s, r);
            && s'.log == s.log.Append(o.fsync, r) && s'.mem == MemTables.Inserted(s.mem, r)
            && s'.imms == s.imms && s'.levels == s.levels && s'.files == s.files && s'.edits == s.edits
            && s'.nextSeq == r.ik.seqno && s'.nextFile == s.nextFile
    ensures IsNext(s, r) ==> r.ik.seqno == s.nextSeq + 1
  {
  }

  lemma AppendLive(o: Options, s: State, H: History, r: Record)
    requires Live(o, s, H) && IsNext(s, r)
    ensures Live(o, AppendRecord(o, s, r), H + [r])
    ensures Contents(AppendRecord(o, s, r).mem) == Contents(s.mem) + {r}
  {
    hide *;
    var s' := AppendRecord(o, s, r);
    LiveIs(o, s, H);
    AppendFields(o, s, r);
    NewerIs(H, r);
    IncreasingStep(H, r);
    forall q | q in s.mem ensures q.ik != r.ik { MemInHistory(s, H, q); }
    MemTables.InsertedFresh(s.mem, r);
    SourcesIs(s);
    SourcesIs(s');
    WriteKeepsFaith(AllSources(s), H, r);
    assert AllSources(s') == [Contents(s.mem) + {r}] + AllSources(s)[1..];
    LiveIs(o, s', H + [r]);
  }

  lemma LogAppends(o: Options, s: State, r: Record)
    ensures s.log.Append(o.fsync, r).recs == s.log.recs + [r]
    ensures s.log.Append(o.fsync, r).durable == s.log.durable || s.log.Append(o.fsync, r).durable == |s.log.recs| + 1
  {
  }

  lemma AppendLogged(o: Options, s: State, H: History, r: Record)
    requires Live(o, s, H) && Logged(s, H) && IsNext(s, r)
    ensures Logged(AppendRecord(o, s, r), H + [r])
  {
    hide *;
    var s', H' := AppendRecord(o, s, r), H + [r];
    LoggedIs(s, H);
    AppendFields(o, s, r);
    AppendLive(o, s, H, r);
    LogAppends(o, s, r);
    LoggedIs(s', H');
    assert H'[Flushed(s', H')..] == H[Flushed(s, H)..] + [r];
    assert H'[..Flushed(s', H')] == H[..Flushed(s, H)];
    ContentsAppend(s.log.recs, r);
  }

  lemma ContentsAppend(rs: seq<Record>, r: Record)
    ensures Contents(rs + [r]) == Contents(rs) + {r}
  {
  }

  lemma AppendSafe(o: Options, s: State, H: History, r: Record)
    requires Live(o, s, H) && Logged(s, H) && Safe(o, s, H) && IsNext(s, r)
    ensures Safe(o, AppendRecord(o, s, r), H + [r])
  {
    hide *;
    var s', H', d := AppendRecord(o, s, r), H + [r], s.log.durable;
    LoggedIs(s, H);
    LoggedIs(s', H');
    SafeIs(o, s, H);
    AppendFields(o, s, r);
    AppendLive(o, s, H, r);
    AppendLogged(o, s, H, r);
    LogAppends(o, s, r);
    AppendKeeps(s.log, o.fsync, r);
    LiveIs(o, s', H');
    OnDiskIs(s, H, d);
    OnDiskIs(s', H', d);
    assert s'.log.recs[..d] == s.log.recs[..d];
    assert H'[..|H'| - |s'.log.recs| + d] == H[..|H| - |s.log.recs| + d];
    SafeIs(o, s', H');
    if s'.log.durable != d {
      OnDiskIs(s', H', s'.log.durable);
      DiskAdvance(TableSources(s.levels), s'.log.recs, H', d, s'.log.durable);
      ContentsPrefix(s'.log.recs, d, s'.log.durable);
    }
  }

  lemma AppendReopens(o: Options, s: State, H: History, r: Record)
    requires Live(o, s, H) && Logged(s, H) && Reopens(s, H) && IsNext(s, r)
    ensures Reopens(AppendRecord(o, s, r), H + [r])
  {
    hide *;
    var s', H', d := AppendRecord(o, s, r), H + [r], |s.log.recs|;
    LoggedIs(s, H);
    LoggedIs(s', H');
    ReopensIs(s, H);
    ReopensIs(s', H');
    AppendFields(o, s, r);
    AppendLive(o, s, H, r);
    AppendLogged(o, s, H, r);
    LogAppends(o, s, r);
    LiveIs(o, s', H');
    var w := s'.log.recs;
    assert w[..d] == s.log.recs && w[..d + 1] == w;
    assert H'[..|H'| - |w| + d] == H && H'[..|H'| - |w| + d + 1] == H';
    DiskAdvance(TableSources(s.levels), w, H', d, d + 1);
  }

  lemma ContentsPrefix(rs: seq<Record>, a: nat, b: nat)
    requires a <= b <= |rs|
    ensures Contents(rs[..a]) <= Contents(rs[..b])
  {
  }

  lemma AppendInv(o: Options, s: State, H: History, r: Record)
    requires Inv(o, s, H) && IsNext(s, r)
    ensures Inv(o, AppendRecord(o, s, r), H + [r])
  {
    hide *;
    var s' := AppendRecord(o, s, r);
    InvIs(o, s, H);
    AppendFields(o, s, r);
    CataloguedIs(s);
    CataloguedIs(s');
    AppendLive(o, s, H, r);
    AppendLogged(o, s, H, r);
    AppendReopens(o, s, H, r);
    if o.fsync != Never { AppendSafe(o, s, H, r); }
    InvIs(o, s', H + [r]);
  }

  /** One round of the write loop, for values and tombstones alike. It stalls, and changes nothing,
      with two frozen memtables or twice the trigger in L0; else the record is logged and inserted,
      and the memtable is set aside exactly when key, value and 16 bytes more take it to its limit. */
  lemma WriteEffects(o: Options, s: State, key: bytes, value: bytes, kind: ValueKind)
    requires |s.levels| >= 1
    ensures var s', r := Write(o, s, key, value, kind), Record(InternalKey(key, s.nextSeq + 1, kind), value);
            var size, mem := s.memBytes + |key| + |value| + 16, MemTables.Inserted(s.mem, r);
            if |s.imms| >= 2 || |s.levels[0]| >= 2 * o.l0Trigger then s' == s
            else
              && s'.log.recs == s.log.recs + [r] && s'.nextSeq == s.nextSeq + 1
              && s'.levels == s.levels && s'.files == s.files && s'.edits == s.edits && s'.nextFile == s.nextFile
              && (if size >= o.memtableBytes then s'.imms == s.imms + [mem] && s'.mem == [] && s'.memBytes == 0
                  else s'.imms == s.imms && s'.mem == mem && s'.memBytes == size)
  {
    hide MemTables.Inserted, RecordBytes;
  }

  /** So a write sets a memtable aside if and only if it is accepted and fills it. */
  lemma FreezesWhenFull(o: Options, s: State, key: bytes, value: bytes, kind: ValueKind)
    requires |s.levels| >= 1 && |s.imms| < 2 && |s.levels[0]| < 2 * o.l0Trigger
    ensures |Write(o, s, key, value, kind).imms| == |s.imms| + 1 <==> s.memBytes + |key| + |value| + 16 >= o.memtableBytes
    ensures |Write(o, s, key, value, kind).imms| != |s.imms| + 1 ==> Write(o, s, key, value, kind).imms == s.imms
  {
    hide *;
    WriteEffects(o, s, key, value, kind);
  }

  // ---------------------------------------------------------------- sync and freeze

  lemma SyncFields(o: Options, s: State)
    ensures SyncLog(o, s) == s.(log := s.log.Sync(o.fsync))
    ensures s.log.Sync(o.fsync).recs == s.log.recs
    ensures o.fsync != Never ==> s.log.Sync(o.fsync).durable == |s.log.recs|
  {
  }

  /** The log is no part of what reads see. */
  lemma LiveButLog(o: Options, s: State, H: History, log: Log)
    ensures Live(o, s.(log := log), H) == Live(o, s, H)
  {
    hide *;
    var s' := s.(log := log);
    SourcesIs(s);
    SourcesIs(s');
    LiveIs(o, s, H);
    LiveIs(o, s', H);
  }

  lemma SyncInv(o: Options, s: State, H: History)
    requires Inv(o, s, H)
    ensures Inv(o, SyncLog(o, s), H)
    ensures o.fsync != Never ==> SyncLog(o, s).log.durable == |s.log.recs|
  {
    hide *;
    var s', all := SyncLog(o, s), |s.log.recs|;
    InvIs(o, s, H);
    SyncFields(o, s);
    LiveButLog(o, s, H, s'.log);
    CataloguedIs(s);
    CataloguedIs(s');
    LoggedIs(s, H);
    LoggedIs(s', H);
    ReopensIs(s, H);
    ReopensIs(s', H);
    if o.fsync != Never {
      SafeIs(o, s, H);
      SafeAdvance(o, s, H, all);
      SyncKeeps(s.log, o.fsync);
      OnDiskIs(s, H, all);
      OnDiskIs(s', H, all);
      assert s.log.recs[..all] == s.log.recs;
      SafeIs(o, s', H);
    }
    InvIs(o, s', H);
  }

  lemma FreezeFields(o: Options, s: State)
    ensures Freeze(o, s) == SyncLog(o, s).(imms := s.imms + [s.mem], mem := [], memBytes := 0)
  {
  }

  lemma FrozenStep(imms: seq<seq<Record>>, m: seq<Record>)
    ensures Frozen(imms + [m]) == [Contents(m)] + Frozen(imms)
  {
    assert (imms + [m])[..|imms|] == imms;
  }

  lemma FreezeLive(o: Options, s: State, H: History)
    requires Live(o, s, H)
    ensures Live(o, s.(imms := s.imms + [s.mem], mem := [], memBytes := 0), H)
  {
    hide *;
    var s' := s.(imms := s.imms + [s.mem], mem := [], memBytes := 0);
    LiveIs(o, s, H);
    LiveIs(o, s', H);
    SourcesIs(s);
    SourcesIs(s');
    FrozenStep(s.imms, s.mem);
    NothingSorted();
    FaithfulIs(AllSources(s), H);
    var none: seq<Source> := [];
    assert none + AllSources(s) == AllSources(s);
    EmptySource(none, AllSources(s));
    assert AllSources(s') == none + [{}] + AllSources(s);
    SameUnionFaithful(AllSources(s), AllSources(s'), H);
  }

  lemma NothingSorted()
    ensures Sorted([]) && Contents([]) == {}
  {
  }

  lemma FreezeInv(o: Options, s: State, H: History)
    requires Inv(o, s, H)
    ensures Inv(o, Freeze(o, s), H)
  {
    hide *;
    var s0, s' := SyncLog(o, s), Freeze(o, s);
    SyncInv(o, s, H);
    SyncFields(o, s);
    FreezeFields(o, s);
    InvIs(o, s0, H);
    FreezeLive(o, s0, H);
    CataloguedIs(s0);
    CataloguedIs(s');
    LoggedIs(s0, H);
    LoggedIs(s', H);
    ReopensIs(s0, H);
    ReopensIs(s', H);
    NothingSorted();
    if o.fsync != Never {
      SafeIs(o, s0, H);
      assert s0.log.recs[..s0.log.durable] == s0.log.recs;
      OnDiskIs(s0, H, s0.log.durable);
      OnDiskIs(s', H, s0.log.durable);
      SafeIs(o, s', H);
    }
    InvIs(o, s', H);
  }

  /** A write, acknowledged or stalled, keeps the invariant. */
  lemma WriteInv(o: Options, s: State, H: History, key: bytes, value: bytes, kind: ValueKind)
    requires Inv(o, s, H) && |s.levels| >= 1
    ensures Inv(o, Write(o, s, key, value, kind), if Stalled(o, s) then H else H + [NewRecord(s, key, value, kind)])
  {
    hide Inv, AppendRecord, Freeze;
    if !Stalled(o, s) {
      var r := NewRecord(s, key, value, kind);
      AppendInv(o, s, H, r);
      FreezeInv(o, AppendRecord(o, s, r), H + [r]);
    }
  }
}
