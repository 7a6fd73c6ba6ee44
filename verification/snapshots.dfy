/** What a compaction does to reads at an older position (src/compact.rs 168-185, src/snapshot.rs). */
module Snapshots {
  import opened ByteStrings
  import opened Keys
  import opened Records
  import opened Versions
  import opened Sources
  import opened Histories
  import opened EngineOptions
  import opened CompactionFaith
  import opened Compaction
  import opened CompactedLevels
  import opened CompactionSteps
  import opened LevelFaith
  import opened Engine
  import opened EngineInvariant
  import opened EngineCompact
  import EngineFlush
  import EngineRecover
  import ManifestLog
  import MacroRuns
  import MemTables
  import Releveling
  import Runs
  import Scans

  predicate Consumed(job: Job, l: nat, t: Table) {
    (l == job.level && t in job.upper) || (l == job.level + 1 && t in job.lower)
  }

  /** Everything but the inputs of a job: memory, and the tables the job leaves alone. */
  ghost function Outside(s: State, job: Job): Source {
    Union(InMemory(s))
    + (set l: nat, t: Table, r: Record | l < |s.levels| && t in s.levels[l] && !Consumed(job, l, t) && r in t.recs :: r)
  }

  lemma OutsideHas(s: State, job: Job, r: Record)
    ensures r in Outside(s, job) <==>
            || r in Union(InMemory(s))
            || exists l: nat, t: Table :: l < |s.levels| && t in s.levels[l] && !Consumed(job, l, t) && r in t.recs
  {
  }

  // ---------------------------------------------------------------- the sources around the job

  /** A job that writes nothing. */
  function Nothing(s: Step): Step {
    s.(added := [])
  }

  lemma NothingGood(s: Step)
    requires s.Good()
    ensures Nothing(s).Good()
  {
  }

  lemma NothingParts(s: Step, above: seq<Source>)
    requires s.job.level + 1 < |s.levels|
    ensures PartsOf(Nothing(s), above) == PartsOf(s, above).(output := {})
  {
    NoTables();
  }

  lemma NothingStays(s: Step, l: nat, t: Table)
    ensures Nothing(s).Stays(l, t) <==> l < |s.levels| && t in s.levels[l] && !Consumed(s.job, l, t)
  {
  }

  lemma AfterUnionIs(s: Step, above: seq<Source>)
    requires s.Good()
    ensures Union(PartsOf(s, above).After()) == Union(above + TableSources(s.NewLevels()))
  {
    hide *;
    GoodParts(s);
    if s.job.level == 0 { TopAfterUnion(s, above); } else { DeepAfter(s, above); }
  }

  lemma OutsideIs(o: Options, s: State, H: History, job: Job, watermark: nat)
    requires Inv(o, s, H) && Releveling.JobOf(s.levels, job) && job.level + 1 < |s.levels|
    ensures Union(PartsOf(JobStep(o, s, job, watermark), InMemory(s)).(output := {}).After()) == Outside(s, job)
  {
    hide *;
    var step, mem := JobStep(o, s, job, watermark), InMemory(s);
    var none := Nothing(step);
    InvIs(o, s, H);
    CompactFields(o, s, job, watermark);
    JobStepGood(o, s, H, job, watermark);
    NothingGood(step);
    NothingParts(step, mem);
    AfterUnionIs(none, mem);
    NothingFields(step);
    var v := none.NewLevels();
    UnionSplit(mem, TableSources(v));
    forall r ensures r in Union(TableSources(v)) <==>
        exists l: nat, t: Table :: l < |s.levels| && t in s.levels[l] && !Consumed(job, l, t) && r in t.recs {
      LeftTables(step, r);
    }
    forall r ensures r in Outside(s, job) <==> r in Union(mem + TableSources(v)) { OutsideHas(s, job, r); }
  }

  lemma NothingFields(s: Step)
    ensures Nothing(s).job == s.job && Nothing(s).levels == s.levels
  {
  }

  lemma LeftTables(s: Step, r: Record)
    requires s.Good()
    ensures r in Union(TableSources(Nothing(s).NewLevels())) <==>
            exists l: nat, t: Table :: l < |s.levels| && t in s.levels[l] && !Consumed(s.job, l, t) && r in t.recs
  {
    hide *;
    var none := Nothing(s);
    var v := none.NewLevels();
    NothingGood(s);
    NothingFields(s);
    StepParts(none);
    GoodParts(none);
    Scans.TableSourceMembers(v, r);
    if r in Union(TableSources(v)) {
      var l :| 0 <= l < |v| && r in LevelSet(v[l]);
      InLevelSet(v[l], r);
      NewLevelMembers(none, l);
      var t: Table :| t in v[l] && r in t.recs;
      NothingStays(s, l, t);
    }
    if l: nat, t: Table :| l < |s.levels| && t in s.levels[l] && !Consumed(s.job, l, t) && r in t.recs {
      NothingStays(s, l, t);
      NewLevelMembers(none, l);
      InLevelSet(v[l], r);
    }
  }

  // ---------------------------------------------------------------- reads before and after

  /** At a state of the invariant a read is the newest visible version anywhere. */
  lemma ReadIsNewest(o: Options, s: State, H: History, k: bytes, maxSeq: nat)
    requires Inv(o, s, H)
    ensures FirstHit(AllSources(s), k, maxSeq) == Newest(Union(AllSources(s)), k, maxSeq)
    ensures Ordered(AllSources(s)) && OneWritePerSeq(Union(AllSources(s)))
    ensures AllSources(s) == InMemory(s) + TableSources(s.levels)
  {
    hide *;
    InvIs(o, s, H);
    LiveIs(o, s, H);
    FaithfulIs(AllSources(s), H);
    IncreasingUnique(H);
    SubsetUnique(Union(AllSources(s)), Contents(H));
    WalkIsNewest(AllSources(s), k, maxSeq);
    Runs.AllSourcesIs(s);
  }

  /** The facts about a job that the lemmas below share. */
  lemma JobReads(o: Options, s: State, H: History, job: Job, watermark: nat, k: bytes, maxSeq: nat)
    requires Inv(o, s, H) && Releveling.JobOf(s.levels, job)
    ensures job.level + 1 < |s.levels|
    ensures var step, s' := JobStep(o, s, job, watermark), CompactJob(o, s, job, watermark);
            var p := PartsOf(step, InMemory(s));
            && step.Good() && Writes(step, watermark) && step.levels == s.levels && step.job == job
            && s'.levels == step.NewLevels() && p.Inputs() == InputSet(job)
            && p.Fits(job.level + 2 >= |s.levels|, watermark) && p.Before() == AllSources(s)
            && Union(p.After()) == Union(AllSources(s'))
            && FirstHit(AllSources(s'), k, maxSeq) == Newest(Union(AllSources(s')), k, maxSeq)
  {
    hide *;
    var step, s' := JobStep(o, s, job, watermark), CompactJob(o, s, job, watermark);
    InvIs(o, s, H);
    CompactFields(o, s, job, watermark);
    JobStepGood(o, s, H, job, watermark);
    GoodParts(step);
    CompactJobInv(o, s, H, job, watermark);
    ReadIsNewest(o, s, H, k, maxSeq);
    ReadIsNewest(o, s', H, k, maxSeq);
    SameMemory(s, s');
    PartsBefore(step, InMemory(s));
    PartsFit(step, InMemory(s), watermark);
    PartsFields(step, InMemory(s));
    AfterUnionIs(step, InMemory(s));
  }

  lemma SameMemory(s: State, s': State)
    requires s'.mem == s.mem && s'.imms == s.imms
    ensures InMemory(s') == InMemory(s)
  {
  }

  /** A compaction changes no read of `k` at or above the newest version of `k` among its inputs. */
  lemma ReadAbove(o: Options, s: State, H: History, job: Job, watermark: nat, k: bytes, maxSeq: nat)
    requires Inv(o, s, H) && Releveling.JobOf(s.levels, job)
    requires forall r :: r in InputSet(job) && r.ik.userKey == k ==> r.ik.seqno <= maxSeq
    ensures ValueOf(FirstHit(AllSources(CompactJob(o, s, job, watermark)), k, maxSeq))
         == ValueOf(FirstHit(AllSources(s), k, maxSeq))
  {
    hide *;
    JobReads(o, s, H, job, watermark, k, maxSeq);
    ReadIsNewest(o, s, H, k, maxSeq);
    LookupKept(PartsOf(JobStep(o, s, job, watermark), InMemory(s)), job.level + 2 >= |s.levels|, watermark, k, maxSeq);
  }

  /** Below that version it answers as if the inputs had never held `k`, whatever the watermark: an
      open snapshot does not protect them. */
  lemma ReadBelow(o: Options, s: State, H: History, job: Job, watermark: nat, k: bytes, maxSeq: nat, n: Record)
    requires Inv(o, s, H) && Releveling.JobOf(s.levels, job)
    requires n in InputSet(job) && n.ik.userKey == k && maxSeq < n.ik.seqno
    ensures FirstHit(AllSources(CompactJob(o, s, job, watermark)), k, maxSeq) == Newest(Outside(s, job), k, maxSeq)
  {
    hide *;
    JobReads(o, s, H, job, watermark, k, maxSeq);
    ReadIsNewest(o, s, H, k, maxSeq);
    OutsideIs(o, s, H, job, watermark);
    LookupBelow(PartsOf(JobStep(o, s, job, watermark), InMemory(s)), job.level + 2 >= |s.levels|, watermark, k,
        maxSeq, n);
  }

  /** Exactly when such a read survives: if the version it sees is none that the compaction
      consumes. */
  lemma ReadKept(o: Options, s: State, H: History, job: Job, watermark: nat, k: bytes, maxSeq: nat, n: Record)
    requires Inv(o, s, H) && Releveling.JobOf(s.levels, job)
    requires n in InputSet(job) && n.ik.userKey == k && maxSeq < n.ik.seqno
    ensures var seen := FirstHit(AllSources(s), k, maxSeq);
            FirstHit(AllSources(CompactJob(o, s, job, watermark)), k, maxSeq) == seen <==>
            (seen.Some? ==> seen.value in Outside(s, job))
  {
    hide *;
    JobReads(o, s, H, job, watermark, k, maxSeq);
    ReadIsNewest(o, s, H, k, maxSeq);
    OutsideIs(o, s, H, job, watermark);
    SnapshotReadKept(PartsOf(JobStep(o, s, job, watermark), InMemory(s)), job.level + 2 >= |s.levels|, watermark, k,
        maxSeq, n);
  }

  // ---------------------------------------------------------------- a snapshot that changes

  /** A run that can happen, and where it leads. */
  ghost predicate Leads(o: Options, files: Files, es: seq<Runs.Event>, s: State, H: History)
    requires o.Usable()
  {
    Runs.Possible(o, files, es) && Runs.Reached(o, files, es) == (s, H)
  }

  lemma Start(o: Options, files: Files)
    requires o.Usable()
    ensures Leads(o, files, [], Runs.Fresh(o, files), [])
  {
    hide Inv, Runs.Fresh, Runs.CanHappen;
    Runs.FreshInv(o, files);
    Runs.EmptyRun(o, Runs.Fresh(o, files), []);
  }

  lemma Next(o: Options, files: Files, es: seq<Runs.Event>, s: State, H: History, e: Runs.Event)
    requires o.Usable() && Leads(o, files, es, s, H) && |s.levels| == o.maxLevels && Runs.CanHappen(o, s, e)
    ensures Inv(o, s, H) && |Runs.After(o, s, e).levels| == o.maxLevels
    ensures Leads(o, files, es + [e], Runs.After(o, s, e), Runs.Recorded(o, s, H, e))
  {
    hide *;
    LeadsIs(o, files, es, s, H);
    Runs.EventInv(o, s, H, e);
    MacroRuns.OneEvent(o, s, H, e);
    MacroRuns.RunJoin(o, Runs.Fresh(o, files), [], es, [e]);
    PossibleIs(o, files, es + [e]);
    Runs.ReachedIs(o, files, es + [e]);
    LeadsIs(o, files, es + [e], Runs.After(o, s, e), Runs.Recorded(o, s, H, e));
  }

  lemma LeadsIs(o: Options, files: Files, es: seq<Runs.Event>, s: State, H: History)
    requires o.Usable()
    ensures Leads(o, files, es, s, H) <==> Runs.Possible(o, files, es) && Runs.Reached(o, files, es) == (s, H)
    ensures Leads(o, files, es, s, H) ==>
              && Inv(o, Runs.Fresh(o, files), []) && |Runs.Fresh(o, files).levels| == o.maxLevels
              && Runs.IsRun(o, Runs.Fresh(o, files), [], es)
              && Runs.EndOf(o, Runs.Fresh(o, files), [], es) == (s, H) && Inv(o, s, H)
  {
    hide Inv, Runs.Possible, Runs.Reached, Runs.IsRun, Runs.EndOf, Runs.Fresh, Options.Usable;
    if Leads(o, files, es, s, H) { Runs.ReachedIs(o, files, es); }
  }

  lemma PossibleIs(o: Options, files: Files, es: seq<Runs.Event>)
    requires o.Usable() && Inv(o, Runs.Fresh(o, files), []) && |Runs.Fresh(o, files).levels| == o.maxLevels
    ensures Runs.Possible(o, files, es) <==> Runs.IsRun(o, Runs.Fresh(o, files), [], es)
  {
    hide Inv, Runs.IsRun, Runs.Fresh, Options.Usable;
  }

  lemma FreshFields(o: Options, files: Files)
    requires o.Usable()
    ensures var s := Runs.Fresh(o, files);
            && s.mem == [] && s.memBytes == 0 && s.imms == [] && s.nextSeq == 0 && |s.levels| == o.maxLevels >= 2
            && forall l :: 0 <= l < |s.levels| ==> s.levels[l] == []
  {
    EngineRecover.FirstEdits(0, 0);
    EngineRecover.NoLevels(o.fmt, files, o.maxLevels);
    hide ManifestLog.Replay, FromMetas;
  }

  /** The two versions of the key. */
  function First(k: bytes, v: bytes): Record {
    Record(InternalKey(k, 1, Put), v)
  }

  function Second(k: bytes, v: bytes): Record {
    Record(InternalKey(k, 2, Put), v)
  }

  /** A write that neither stalls nor fills the memtable. */
  lemma PlainWrite(o: Options, s: State, k: bytes, v: bytes)
    requires o.Usable() && |s.levels| == o.maxLevels && s.imms == [] && |s.levels[0]| < 2 * o.l0Trigger
    requires s.memBytes + |k| + |v| + 16 < o.memtableBytes
    ensures var e := Runs.Event.Write(k, v, Put);
            && Runs.CanHappen(o, s, e) && Runs.Accepted(o, s, e) == [NewRecord(s, k, v, Put)]
            && Runs.After(o, s, e) == AppendRecord(o, s, NewRecord(s, k, v, Put))
            && Runs.After(o, s, e).memBytes == s.memBytes + |k| + |v| + 16
            && forall H :: Runs.Recorded(o, s, H, e) == H + [NewRecord(s, k, v, Put)]
  {
    hide MemTables.Inserted;
  }

  /** Two versions of a key, frozen together. */
  ghost predicate TwoFrozen(s: State, a: Record, b: Record) {
    && s.mem == [] && s.memBytes == 0 && |s.imms| == 1 && s.imms[0] != [] && Contents(s.imms[0]) == {a, b}
    && forall l :: 0 <= l < |s.levels| ==> s.levels[l] == []
  }

  lemma TwoWrites(o: Options, files: Files, k: bytes, v: bytes, w: bytes) returns (es: seq<Runs.Event>, s: State)
    requires o.Usable() && 2 * |k| + |v| + |w| + 32 < o.memtableBytes
    ensures es == [Runs.Event.Write(k, v, Put), Runs.Event.Write(k, w, Put), Runs.FreezeMem]
    ensures Leads(o, files, es, s, [First(k, v), Second(k, w)]) && |s.levels| == o.maxLevels >= 2
    ensures TwoFrozen(s, First(k, v), Second(k, w)) && |s.imms| == 1 && s.imms[0] != []
  {
    hide *;
    var a, b := First(k, v), Second(k, w);
    var e1, e2 := Runs.Event.Write(k, v, Put), Runs.Event.Write(k, w, Put);
    es := [e1, e2, Runs.FreezeMem];
    assert [] + [e1] == [e1] && [e1] + [e2] == [e1, e2] && [e1, e2] + [Runs.FreezeMem] == es;
    assert [] + [a] == [a] && [a] + [b] == [a, b];
    var s0 := Runs.Fresh(o, files);
    UsableTrigger(o);
    FreshFields(o, files);
    Start(o, files);
    RecordsAre(s0, k, v, w);
    PlainWrite(o, s0, k, v);
    Next(o, files, [], s0, [], e1);
    var s1 := Runs.After(o, s0, e1);
    AppendFields(o, s0, a);
    WrittenFirst(a);
    RecordsAre(s1, k, v, w);
    PlainWrite(o, s1, k, w);
    Next(o, files, [e1], s1, [a], e2);
    var s2 := Runs.After(o, s1, e2);
    AppendFields(o, s1, b);
    WrittenSecond(a, b);
    CanFreeze(o, s2);
    Next(o, files, [e1, e2], s2, [a, b], Runs.FreezeMem);
    s := Runs.After(o, s2, Runs.FreezeMem);
    EngineInvariant.FreezeFields(o, s2);
    SyncFields(o, s2);
    FrozenTwo(s, s2.mem, a, b);
  }

  lemma RecordsAre(s: State, k: bytes, v: bytes, w: bytes)
    ensures s.nextSeq == 0 ==> NewRecord(s, k, v, Put) == First(k, v)
    ensures s.nextSeq == 1 ==> NewRecord(s, k, w, Put) == Second(k, w)
    ensures First(k, v).ik.seqno == 1 && Second(k, w).ik.seqno == 2
    ensures First(k, v).ik.userKey == k && Second(k, w).ik.userKey == k && First(k, v).ik != Second(k, w).ik
  {
  }

  lemma WrittenFirst(a: Record)
    ensures MemTables.Inserted([], a) == [a]
  {
  }

  lemma WrittenSecond(a: Record, b: Record)
    requires a.ik != b.ik
    ensures Contents(MemTables.Inserted([a], b)) == {a, b} && MemTables.Inserted([a], b) != []
  {
    MemTables.InsertedFresh([a], b);
  }

  lemma CanFreeze(o: Options, s: State)
    requires o.Usable() && |s.levels| == o.maxLevels && s.mem != []
    ensures Runs.CanHappen(o, s, Runs.FreezeMem) && Runs.After(o, s, Runs.FreezeMem) == Freeze(o, s)
    ensures forall H :: Runs.Recorded(o, s, H, Runs.FreezeMem) == H
  {
    hide Freeze;
  }

  lemma FrozenTwo(s: State, m: seq<Record>, a: Record, b: Record)
    requires s.mem == [] && s.memBytes == 0 && s.imms == [m] && m != [] && Contents(m) == {a, b}
    requires forall l :: 0 <= l < |s.levels| ==> s.levels[l] == []
    ensures TwoFrozen(s, a, b)
  {
  }

  /** Nothing in memory, `n` tables in L0 and none below; two records are in some of them. */
  ghost predicate Flat(s: State, n: nat, a: Record, b: Record) {
    && s.mem == [] && s.memBytes == 0 && s.imms == [] && |s.levels| >= 2 && |s.levels[0]| == n
    && (forall l :: 0 < l < |s.levels| ==> s.levels[l] == [])
    && a in LevelSet(s.levels[0]) && b in LevelSet(s.levels[0])
  }

  lemma FlatIs(s: State, n: nat, a: Record, b: Record)
    ensures Flat(s, n, a, b) <==>
            && s.mem == [] && s.memBytes == 0 && s.imms == [] && |s.levels| >= 2 && |s.levels[0]| == n
            && (forall l :: 0 < l < |s.levels| ==> s.levels[l] == [])
            && a in LevelSet(s.levels[0]) && b in LevelSet(s.levels[0])
  {
  }

  lemma CanFlushOne(o: Options, s: State)
    requires o.Usable() && |s.levels| == o.maxLevels && s.imms != []
    ensures |s.levels| >= 2 && Runs.CanHappen(o, s, Runs.FlushOne)
    ensures Runs.After(o, s, Runs.FlushOne) == FlushOldest(o, s)
    ensures forall H :: Runs.Recorded(o, s, H, Runs.FlushOne) == H
  {
    hide FlushOldest;
  }

  lemma FlushTwo(o: Options, s: State, a: Record, b: Record)
    requires o.Usable() && |s.levels| == o.maxLevels && TwoFrozen(s, a, b)
    ensures Runs.CanHappen(o, s, Runs.FlushOne) && Flat(Runs.After(o, s, Runs.FlushOne), 1, a, b)
    ensures forall H :: Runs.Recorded(o, s, H, Runs.FlushOne) == H
  {
    var t := NewTable(o.fmt, s.nextFile, s.imms[0]);
    CanFlushOne(o, s);
    ContentsIs(s.imms[0]);
    assert t.recs == s.imms[0] && FlushOldest(o, s).levels[0] == [t];
    InLevelSet([t], a);
    InLevelSet([t], b);
    hide NewTable, LevelSet, Contents;
  }

  /** One more write, frozen and flushed: one more table in L0. */
  lemma OneRound(o: Options, files: Files, es: seq<Runs.Event>, s: State, H: History, n: nat, a: Record, b: Record,
      k: bytes, v: bytes)
    returns (es': seq<Runs.Event>, s': State, H': History)
    requires o.Usable() && Leads(o, files, es, s, H) && |s.levels| == o.maxLevels && Flat(s, n, a, b)
    requires n < 2 * o.l0Trigger && |k| + |v| + 16 < o.memtableBytes
    ensures es' == es + [Runs.Event.Write(k, v, Put), Runs.FreezeMem, Runs.FlushOne]
    ensures Leads(o, files, es', s', H') && |s'.levels| == o.maxLevels && Flat(s', n + 1, a, b)
  {
    hide *;
    var e, r := Runs.Event.Write(k, v, Put), NewRecord(s, k, v, Put);
    FlatIs(s, n, a, b);
    PlainWrite(o, s, k, v);
    Next(o, files, es, s, H, e);
    var s1 := Runs.After(o, s, e);
    AppendFields(o, s, r);
    WrittenFirst(r);
    CanFreeze(o, s1);
    Next(o, files, es + [e], s1, H + [r], Runs.FreezeMem);
    var s2 := Runs.After(o, s1, Runs.FreezeMem);
    EngineInvariant.FreezeFields(o, s1);
    SyncFields(o, s1);
    CanFlushOne(o, s2);
    Next(o, files, es + [e] + [Runs.FreezeMem], s2, H + [r], Runs.FlushOne);
    es', s', H' := es + [e, Runs.FreezeMem, Runs.FlushOne], Runs.After(o, s2, Runs.FlushOne), H + [r];
    assert es + [e] + [Runs.FreezeMem] + [Runs.FlushOne] == es';
    MoreOnTop(o, s2, [r], a, b);
    FlatIs(s', n + 1, a, b);
  }

  lemma MoreOnTop(o: Options, s: State, m: seq<Record>, a: Record, b: Record)
    requires |s.levels| >= 2 && s.imms == [m] && m != []
    requires a in LevelSet(s.levels[0]) && b in LevelSet(s.levels[0])
    ensures var s' := FlushOldest(o, s);
            && s'.mem == s.mem && s'.memBytes == s.memBytes && s'.imms == [] && |s'.levels| == |s.levels|
            && |s'.levels[0]| == |s.levels[0]| + 1 && (forall l :: 0 < l < |s.levels| ==> s'.levels[l] == s.levels[l])
            && a in LevelSet(s'.levels[0]) && b in LevelSet(s'.levels[0])
  {
    var t := NewTable(o.fmt, s.nextFile, m);
    assert FlushOldest(o, s).levels[0] == s.levels[0] + [t];
    InLevelSet(s.levels[0], a);
    InLevelSet(s.levels[0], b);
    InLevelSet(s.levels[0] + [t], a);
    InLevelSet(s.levels[0] + [t], b);
    hide NewTable, LevelSet;
  }

  /** Writes and flushes alone. */
  ghost predicate OnlyFlushes(es: seq<Runs.Event>) {
    forall e :: e in es ==> e.Write? || e.FreezeMem? || e.FlushOne?
  }

  lemma MoreFlushes(es: seq<Runs.Event>, k: bytes, v: bytes)
    requires OnlyFlushes(es)
    ensures OnlyFlushes(es + [Runs.Event.Write(k, v, Put), Runs.FreezeMem, Runs.FlushOne])
  {
  }

  /** As many tables in L0 as make a compaction due. */
  lemma {:induction false} FillTop(o: Options, files: Files, es: seq<Runs.Event>, s: State, H: History, n: nat,
      a: Record, b: Record, k: bytes, v: bytes)
    returns (es': seq<Runs.Event>, s': State, H': History)
    requires o.Usable() && Leads(o, files, es, s, H) && |s.levels| == o.maxLevels && Flat(s, n, a, b)
    requires n <= o.l0Trigger && |k| + |v| + 16 < o.memtableBytes && OnlyFlushes(es)
    ensures es <= es' && OnlyFlushes(es')
    ensures Leads(o, files, es', s', H') && |s'.levels| == o.maxLevels && Flat(s', o.l0Trigger, a, b)
    decreases o.l0Trigger - n
  {
    hide *;
    es', s', H' := es, s, H;
    if n < o.l0Trigger {
      es', s', H' := OneRound(o, files, es, s, H, n, a, b, k, v);
      MoreFlushes(es, k, v);
      es', s', H' := FillTop(o, files, es', s', H', n + 1, a, b, k, v);
    }
  }

  /** All of L0 is picked, and nothing else. */
  lemma PickTop(o: Options, s: State, a: Record, b: Record, watermark: nat)
    requires o.Usable() && |s.levels| == o.maxLevels && Flat(s, o.l0Trigger, a, b)
    ensures var job, e := Job(0, s.levels[0], []), Runs.CompactOnce(watermark);
            && Pick(o, s.levels) == Some(job) && Runs.CanHappen(o, s, e)
            && Runs.After(o, s, e) == CompactJob(o, s, job, watermark)
            && forall H :: Runs.Recorded(o, s, H, e) == H
  {
    hide CompactJob, LowKey, HighKey, LevelSet;
  }

  lemma TopReads(s: State, n: nat, a: Record, b: Record)
    requires Flat(s, n, a, b)
    ensures b in InputSet(Job(0, s.levels[0], [])) && Outside(s, Job(0, s.levels[0], [])) == {}
    ensures a in Union(AllSources(s))
  {
    hide *;
    FlatIs(s, n, a, b);
    var job := Job(0, s.levels[0], []);
    SourcesIs(s);
    InMemoryIs(s);
    EngineFlush.NoFrozen();
    NothingSorted();
    InputSetIs(job);
    Scans.TableSourceMembers(s.levels, a);
    UnionSplit([Contents(s.mem)] + Frozen(s.imms), TableSources(s.levels));
    assert [Contents(s.mem)] + Frozen(s.imms) == [{}];
    forall r ensures r !in Outside(s, job) {
      OutsideHas(s, job, r);
      UnionMembers(InMemory(s), r);
      forall l: nat, t: Table | l < |s.levels| && t in s.levels[l]
        ensures Consumed(job, l, t) { TopConsumed(s, job, l, t); }
    }
  }

  lemma TopConsumed(s: State, job: Job, l: nat, t: Table)
    requires job.level == 0 && l < |s.levels| && t in s.levels[l] && job.upper == s.levels[0]
    requires forall i :: 0 < i < |s.levels| ==> s.levels[i] == []
    ensures Consumed(job, l, t)
  {
  }

  lemma ContentsIs(rs: seq<Record>)
    ensures forall r :: r in Contents(rs) <==> r in rs
  {
  }

  /** So a snapshot does not keep the version it sees. Write a key, take a snapshot, write the key
      again, flush, flush more until a compaction is due, compact with that snapshot as the
      watermark: the snapshot read found the first value before the compaction and finds nothing
      after it. */
  lemma ReadLost(o: Options, files: Files, k: bytes, v: bytes, w: bytes) returns (es: seq<Runs.Event>)
    requires o.Usable() && 2 * |k| + |v| + |w| + 32 < o.memtableBytes
    ensures [Runs.Event.Write(k, v, Put), Runs.Event.Write(k, w, Put)] <= es && OnlyFlushes(es)
    ensures Runs.Possible(o, files, es) && Runs.Possible(o, files, es + [Runs.CompactOnce(1)])
    ensures FirstHit(AllSources(Runs.Reached(o, files, es).0), k, 1) == Some(First(k, v))
    ensures FirstHit(AllSources(Runs.Reached(o, files, es + [Runs.CompactOnce(1)]).0), k, 1) == None
  {
    hide *;
    var a, b := First(k, v), Second(k, w);
    var es1, s1 := TwoWrites(o, files, k, v, w);
    FlushTwo(o, s1, a, b);
    Next(o, files, es1, s1, [a, b], Runs.FlushOne);
    UsableTrigger(o);
    FlushesOnly(k, v, w);
    assert es1 + [Runs.FlushOne]
        == [Runs.Event.Write(k, v, Put), Runs.Event.Write(k, w, Put), Runs.FreezeMem, Runs.FlushOne];
    var s, H;
    es, s, H := FillTop(o, files, es1 + [Runs.FlushOne], Runs.After(o, s1, Runs.FlushOne), [a, b], 1, a, b, k, v);
    FlatIs(s, o.l0Trigger, a, b);
    var job, all := Job(0, s.levels[0], []), es + [Runs.CompactOnce(1)];
    PickTop(o, s, a, b, 1);
    Next(o, files, es, s, H, Runs.CompactOnce(1));
    LeadsIs(o, files, es, s, H);
    LeadsIs(o, files, all, CompactJob(o, s, job, 1), H);
    TopReads(s, o.l0Trigger, a, b);
    RecordsAre(s, k, v, w);
    ReadIsNewest(o, s, H, k, 1);
    SeenIs(Union(AllSources(s)), a);
    PickIsJob(o, s.levels);
    ReadBelow(o, s, H, job, 1, k, 1, b);
    NewestNone({}, k, 1);
  }

  lemma UsableTrigger(o: Options)
    requires o.Usable()
    ensures o.l0Trigger >= 1 && o.maxLevels >= 2
  {
  }

  lemma FlushesOnly(k: bytes, v: bytes, w: bytes)
    ensures OnlyFlushes([Runs.Event.Write(k, v, Put), Runs.Event.Write(k, w, Put), Runs.FreezeMem, Runs.FlushOne])
  {
  }

  lemma SeenIs(S: set<Record>, a: Record)
    requires a in S && OneWritePerSeq(S)
    ensures Newest(S, a.ik.userKey, a.ik.seqno) == Some(a)
  {
    assert Visible(a, a.ik.userKey, a.ik.seqno);
    NewestIs(S, a.ik.userKey, a.ik.seqno, a);
  }

  lemma PickIsJob(o: Options, levels: Levels)
    requires o.Usable() && |levels| == o.maxLevels && Pick(o, levels).Some?
    ensures Releveling.JobOf(levels, Pick(o, levels).value)
  {
    hide Pick, Releveling.JobOf;
    Releveling.PickJob(o, levels);
  }
}
