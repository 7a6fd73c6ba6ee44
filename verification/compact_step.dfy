/** One compaction from job to levels: its output, that it ends, and what it may change
    (src/compact.rs 103-211, src/db.rs 417-461). */
module CompactionSteps {
  import opened ByteStrings
  import opened Records
  import Keys
  import opened Merge
  import opened Builder
  import opened Versions
  import opened Sources
  import opened EngineOptions
  import opened CompactionFaith
  import opened Compaction
  import opened Releveling
  import opened CompactedLevels
  import opened LevelFaith

  /** The tables `run_compaction` writes, numbered from `next`. */
  function Outputs(o: Options, job: Job, watermark: nat, next: nat): seq<Table> {
    SplitKeepsAll(Kept(o, job, watermark), [], 0, o.targetFileSize);
    NewTables(o.fmt, OutputRuns(o, job, watermark), next)
  }

  function StepOf(o: Options, files: Files, levels: Levels, next: nat, job: Job, watermark: nat): Step {
    Step(o.fmt, files, levels, next, job, Outputs(o, job, watermark, next))
  }

  lemma JobSorted(fmt: Format, files: Files, levels: Levels, job: Job)
    requires WellFormed(fmt, files, levels) && JobOf(levels, job)
    ensures InputsSorted(job)
  {
    hide WellFormed, Sorted, Overlapping, LowKey, HighKey;
    forall t | t in job.upper || t in job.lower ensures Sorted(t.recs) {
      if t in job.upper {
        TableOf(fmt, files, levels, job.level, t);
      } else {
        OverlappingMembers(levels[job.level + 1], LowKey(job.upper), HighKey(job.upper), t);
        TableOf(fmt, files, levels, job.level + 1, t);
      }
    }
  }

  /** Every output table, in order: its number, and its run as a piece of the kept records. */
  lemma OutputFacts(o: Options, job: Job, watermark: nat, next: nat)
    requires InputsSorted(job)
    ensures FreshTables(o.fmt, Outputs(o, job, watermark, next), next)
    ensures forall i :: 0 <= i < |Outputs(o, job, watermark, next)| ==> Sorted(Outputs(o, job, watermark, next)[i].recs)
    ensures DisjointLevel(Outputs(o, job, watermark, next))
    ensures LevelSet(Outputs(o, job, watermark, next)) == Contents(Kept(o, job, watermark))
  {
    hide *;
    var kept, runs := Kept(o, job, watermark), OutputRuns(o, job, watermark);
    var ts := Outputs(o, job, watermark, next);
    KeptKeepsNewest(o, job, watermark);
    RunsAre(o, job, watermark);
    OutputsAre(o, job, watermark, next);
    NewTablesDisjoint(o.fmt, runs, next);
    forall i: nat | i < |ts|
      ensures ts[i].recs == runs[i] && ts[i].recs != [] && Sorted(ts[i].recs)
      ensures ts[i] == NewTable(o.fmt, next + i, ts[i].recs) && ts[i].num == next + i {
      NoneEmptyAt(runs, i);
      NewTablesAt(o.fmt, runs, next, i);
      NewTableIs(o.fmt, next + i, runs[i]);
      RunsIncrease(runs, i, i);
    }
    FreshIs(o.fmt, ts, next);
    forall r ensures r in LevelSet(ts) <==> r in Contents(kept) {
      InLevelSet(ts, r);
      ConcatMembers(runs, r);
      ContentsHas(kept, r);
      SomeRun(runs, r);
      if t :| t in ts && r in t.recs {
        var i :| 0 <= i < |ts| && ts[i] == t;
        assert r in runs[i];
      }
      if i :| 0 <= i < |runs| && r in runs[i] { assert ts[i] in ts; }
    }
  }

  /** And so exactly what its output tables hold. */
  lemma OutputsExactly(o: Options, job: Job, watermark: nat, next: nat, r: Record)
    requires InputsSorted(job) && OneWritePerSeq(InputSet(job))
    ensures r in LevelSet(Outputs(o, job, watermark, next)) <==>
            && NewestOfKey(InputSet(job), r)
            && !(r.ik.kind == Keys.Delete && r.ik.seqno <= watermark && job.level + 2 >= o.maxLevels)
  {
    hide *;
    OutputFacts(o, job, watermark, next);
    KeptExactly(o, job, watermark, r);
    ContentsHas(Kept(o, job, watermark), r);
  }

  lemma RunsAre(o: Options, job: Job, watermark: nat)
    ensures Concat(OutputRuns(o, job, watermark)) == Kept(o, job, watermark)
    ensures NoneEmpty(OutputRuns(o, job, watermark))
  {
    hide Kept, SplitFrom, Concat, NoneEmpty;
    SplitKeepsAll(Kept(o, job, watermark), [], 0, o.targetFileSize);
    assert [] + Kept(o, job, watermark) == Kept(o, job, watermark);
  }

  lemma OutputsAre(o: Options, job: Job, watermark: nat, next: nat)
    ensures NoneEmpty(OutputRuns(o, job, watermark))
    ensures Outputs(o, job, watermark, next) == NewTables(o.fmt, OutputRuns(o, job, watermark), next)
  {
    RunsAre(o, job, watermark);
  }

  lemma NoneEmptyAt(runs: seq<seq<Record>>, i: nat)
    requires NoneEmpty(runs) && i < |runs|
    ensures runs[i] != []
  {
  }

  lemma NewTableIs(fmt: Format, num: nat, run: seq<Record>)
    requires run != []
    ensures NewTable(fmt, num, run).recs == run && NewTable(fmt, num, run).num == num
  {
  }

  lemma FreshIs(fmt: Format, ts: seq<Table>, next: nat)
    requires forall i: nat :: i < |ts| ==> ts[i].num == next + i && ts[i].recs != [] && ts[i] == NewTable(fmt, next + i, ts[i].recs)
    ensures FreshTables(fmt, ts, next)
  {
    hide NewTable;
  }

  lemma SomeRun(runs: seq<seq<Record>>, r: Record)
    ensures InSome(runs, r) <==> exists i :: 0 <= i < |runs| && r in runs[i]
  {
  }

  lemma KeptAreInputs(I: Source, O: Source, lastLevel: bool, watermark: nat)
    requires KeepsNewest(I, O, lastLevel, watermark)
    ensures O <= I
  {
  }

  /** What `run_compaction` writes makes a good step, for every job `pick_compaction` returns. */
  lemma StepIsGood(o: Options, files: Files, levels: Levels, next: nat, job: Job, watermark: nat)
    requires Sound(o.fmt, files, levels, next) && JobOf(levels, job) && |levels| == o.maxLevels
    ensures StepOf(o, files, levels, next, job, watermark).Good()
    ensures Writes(StepOf(o, files, levels, next, job, watermark), watermark)
  {
    hide *;
    SoundParts(o.fmt, files, levels, next);
    JobSorted(o.fmt, files, levels, job);
    OutputFacts(o, job, watermark, next);
    KeptKeepsNewest(o, job, watermark);
    KeptAreInputs(InputSet(job), Contents(Kept(o, job, watermark)), IntoLastLevel(o, job), watermark);
    LastLevelIs(o, job);
    StepOfIs(o, files, levels, next, job, watermark);
    var s := StepOf(o, files, levels, next, job, watermark);
    GoodIs(s);
    WritesIs(s, watermark);
  }

  lemma SoundParts(fmt: Format, files: Files, levels: Levels, next: nat)
    requires Sound(fmt, files, levels, next)
    ensures WellFormed(fmt, files, levels) && UniqueNums(levels) && NumsBelow(levels, next)
  {
  }

  lemma LastLevelIs(o: Options, job: Job)
    ensures IntoLastLevel(o, job) == (job.level + 2 >= o.maxLevels)
  {
  }

  lemma StepOfIs(o: Options, files: Files, levels: Levels, next: nat, job: Job, watermark: nat)
    ensures StepOf(o, files, levels, next, job, watermark)
        == Step(o.fmt, files, levels, next, job, Outputs(o, job, watermark, next))
  {
  }

  lemma GoodIs(s: Step)
    requires Sound(s.fmt, s.files, s.levels, s.next) && JobOf(s.levels, s.job)
    requires FreshTables(s.fmt, s.added, s.next)
    requires forall i :: 0 <= i < |s.added| ==> Sorted(s.added[i].recs)
    requires DisjointLevel(s.added) && LevelSet(s.added) <= InputSet(s.job)
    ensures s.Good()
  {
  }

  // ---------------------------------------------------------------- lookups at a read position

  /** Whatever lies above the tables, a compaction changes no lookup of `k` at or above the
      newest version of `k` among its inputs. */
  lemma CompactionKeepsLookups(s: Step, above: seq<Source>, watermark: nat, k: bytes, maxSeq: nat)
    requires s.Good() && Writes(s, watermark)
    requires Ordered(above + TableSources(s.levels)) && OneWritePerSeq(Union(above + TableSources(s.levels)))
    requires forall r :: r in InputSet(s.job) && r.ik.userKey == k ==> r.ik.seqno <= maxSeq
    ensures ValueOf(Newest(Union(above + TableSources(s.levels)), k, maxSeq))
         == ValueOf(Newest(Union(above + TableSources(s.NewLevels())), k, maxSeq))
  {
    hide *;
    GoodParts(s);
    PartsBefore(s, above);
    PartsFit(s, above, watermark);
    PartsFields(s, above);
    LookupKept(PartsOf(s, above), s.job.level + 2 >= |s.levels|, watermark, k, maxSeq);
    if s.job.level == 0 { TopAfterUnion(s, above); } else { DeepAfter(s, above); }
  }

  // ---------------------------------------------------------------- compaction ends

  /** Each record counts once per level, the more the further it is from the last one. */
  function WeightFrom(levels: Levels, l: nat): nat
    requires l <= |levels|
    decreases |levels| - l
  {
    if l == |levels| then 0 else |LevelSet(levels[l])| * (|levels| - l) + WeightFrom(levels, l + 1)
  }

  function Weight(levels: Levels): nat {
    WeightFrom(levels, 0)
  }

  lemma {:induction false} SameWeightFrom(a: Levels, b: Levels, l: nat)
    requires |a| == |b| && l <= |a| && forall i :: l <= i < |a| ==> a[i] == b[i]
    ensures WeightFrom(a, l) == WeightFrom(b, l)
    decreases |a| - l
  {
    if l < |a| { SameWeightFrom(a, b, l + 1); }
  }

  /** Levels that agree but for `l` and `l + 1` differ in weight as those two do. */
  lemma {:induction false} PairWeight(a: Levels, b: Levels, l: nat, n: nat)
    requires |a| == |b| && n <= l && l + 1 < |a|
    requires forall i :: 0 <= i < |a| && i != l && i != l + 1 ==> a[i] == b[i]
    ensures WeightFrom(a, n) - WeightFrom(b, n)
         == (|LevelSet(a[l])| - |LevelSet(b[l])|) * (|a| - l)
             + (|LevelSet(a[l + 1])| - |LevelSet(b[l + 1])|) * (|a| - l - 1)
    decreases l - n
  {
    hide LevelSet;
    if n < l {
      PairWeight(a, b, l, n + 1);
    } else {
      SameWeightFrom(a, b, l + 2);
      var u, v, x, y := |LevelSet(a[l])|, |LevelSet(b[l])|, |LevelSet(a[l + 1])|, |LevelSet(b[l + 1])|;
      assert WeightFrom(a, l) == u * (|a| - l) + (x * (|a| - l - 1) + WeightFrom(a, l + 2));
      assert WeightFrom(b, l) == v * (|a| - l) + (y * (|a| - l - 1) + WeightFrom(b, l + 2));
      Differences(u, v, |a| - l);
      Differences(x, y, |a| - l - 1);
    }
  }

  lemma Differences(a: int, b: int, c: int)
    ensures (a - b) * c == a * c - b * c
  {
  }

  lemma {:induction false} Smaller<T>(a: set<T>, b: set<T>)
    requires a <= b
    ensures |a| <= |b|
  {
    assert |b| == |b - a| + |a| by { assert b == (b - a) + a; }
  }

  lemma Replaced<T>(low: set<T>, gone: set<T>, added: set<T>)
    requires gone <= low
    ensures |low - gone + added| <= |low| - |gone| + |added|
  {
    assert low == (low - gone) + gone;
    var new' := added - (low - gone);
    assert low - gone + added == (low - gone) + new';
    Smaller(new', added);
  }

  lemma UpperShrinks(s: Step)
    requires s.Good()
    ensures |s.NewLevels()| == |s.levels|
    ensures |LevelSet(s.NewLevels()[s.job.level])| == |LevelSet(s.levels[s.job.level])| - |LevelSet(s.job.upper)|
    ensures |LevelSet(s.job.upper)| > 0
  {
    hide *;
    GoodParts(s);
    StepParts(s);
    JobIs(s);
    JobTables(s);
    var l, v := s.job.level, s.NewLevels();
    var all, gone := LevelSet(s.levels[l]), LevelSet(s.job.upper);
    if l == 0 {
      TopEmptied(s);
      NoTables();
    } else {
      UpperAfter(s);
      forall r | r in gone ensures r in all { InLevelSet(s.job.upper, r); InLevelSet(s.levels[l], r); }
      assert all == (all - gone) + gone;
    }
    UpperNonempty(s);
    var t := s.job.upper[0];
    TableOf(s.fmt, s.files, s.levels, l, t);
    TableNonempty(s.fmt, s.files, t);
    InLevelSet(s.job.upper, t.recs[0]);
    assert t.recs[0] in gone;
  }

  lemma NoTables()
    ensures LevelSet([]) == {}
  {
  }

  lemma UpperNonempty(s: Step)
    requires s.Good()
    ensures s.job.upper != []
  {
  }

  lemma TableNonempty(fmt: Format, files: Files, t: Table)
    requires WellFormedTable(fmt, files, t)
    ensures t.recs != []
  {
  }

  lemma LowerGrows(s: Step)
    requires s.Good()
    ensures |s.NewLevels()| == |s.levels|
    ensures |LevelSet(s.NewLevels()[s.job.level + 1])| <= |LevelSet(s.levels[s.job.level + 1])|
        + |LevelSet(s.job.upper)|
  {
    hide *;
    GoodParts(s);
    StepParts(s);
    LowerAfter(s);
    PartsLower(s, []);
    PartsFields(s, []);
    var upper, lower, added := LevelSet(s.job.upper), LevelSet(s.job.lower), LevelSet(s.added);
    Replaced(LevelSet(s.levels[s.job.level + 1]), lower, added);
    InputSetIs(s.job);
    Smaller(added, upper + lower);
    assert upper + lower == lower + (upper - lower);
    Smaller(upper - lower, upper);
  }

  lemma InputSetIs(job: Job)
    ensures InputSet(job) == LevelSet(job.upper) + LevelSet(job.lower)
  {
  }

  /** Every compaction strictly lightens the levels, so repeating it comes to an end. */
  lemma CompactionLightens(s: Step)
    requires s.Good()
    ensures Weight(s.NewLevels()) < Weight(s.levels)
  {
    hide *;
    var l, v := s.job.level, s.NewLevels();
    GoodParts(s);
    StepParts(s);
    forall i: nat | i < |v| && i != l && i != l + 1 ensures v[i] == s.levels[i] { LevelUntouched(s, i); }
    PairWeight(s.levels, v, l, 0);
    UpperShrinks(s);
    LowerGrows(s);
    var up := |LevelSet(s.job.upper)|;
    var down := |LevelSet(s.levels[l + 1])| - |LevelSet(v[l + 1])|;
    WeightIs(v);
    WeightIs(s.levels);
    Lighter(up, down, |v| - l);
  }

  lemma WeightIs(levels: Levels)
    ensures Weight(levels) == WeightFrom(levels, 0)
  {
  }

  lemma Lighter(up: nat, down: int, m: nat)
    requires up > 0 && up + down >= 0 && m >= 1
    ensures up * m + down * (m - 1) > 0
  {
    assert up * m == up * (m - 1) + up;
    assert (up + down) * (m - 1) == up * (m - 1) + down * (m - 1);
    assert (up + down) * (m - 1) >= 0;
  }

  // ---------------------------------------------------------------- when there is nothing to do

  /** What the tuning options ask of the levels. */
  ghost predicate WithinLimits(o: Options, levels: Levels)
    requires |levels| == o.maxLevels >= 1
  {
    && |levels[0]| < o.l0Trigger
    && forall l :: 1 <= l < o.maxLevels - 1 ==> LevelBytes(levels[l]) <= LevelLimit(o, l)
  }

  lemma {:induction false} PickDeepNone(o: Options, levels: Levels, l: nat)
    requires 1 <= l && |levels| == o.maxLevels
    ensures PickDeep(o, levels, l).None? <==> forall i :: l <= i < o.maxLevels - 1 ==> LevelBytes(levels[i]) <= LevelLimit(o, i)
    decreases o.maxLevels - l
  {
    hide LevelLimit;
    if l + 1 < o.maxLevels {
      if LevelBytes(levels[l]) <= LevelLimit(o, l) { PickDeepNone(o, levels, l + 1); }
    }
  }

  /** No compaction is picked exactly when every level is within its limit. */
  lemma NothingToPick(o: Options, levels: Levels)
    requires o.Usable() && |levels| == o.maxLevels
    ensures Pick(o, levels).None? <==> WithinLimits(o, levels)
  {
    PickDeepNone(o, levels, 1);
  }
}
