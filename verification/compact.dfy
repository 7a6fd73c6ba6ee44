/** Choosing a compaction and computing what it writes (src/compact.rs). */
module Compaction {
  import opened ByteStrings
  import opened Keys
  import opened Records
  import opened Merge
  import opened Builder
  import opened ManifestLog
  import opened Versions
  import opened Sources
  import opened EngineOptions
  import opened CompactionFaith
  import MemTables

  datatype Job = Job(level: nat, upper: seq<Table>, lower: seq<Table>)

  // ---------------------------------------------------------------- pick_compaction

  function LevelBytes(ts: seq<Table>): nat {
    if ts == [] then 0 else LevelBytes(ts[..|ts| - 1]) + ts[|ts| - 1].size
  }

  function LowKey(ts: seq<Table>): bytes
    requires ts != []
  {
    var t := ts[|ts| - 1];
    if |ts| == 1 then t.smallest
    else
      var lo := LowKey(ts[..|ts| - 1]);
      if Lt(t.smallest, lo) then t.smallest else lo
  }

  function HighKey(ts: seq<Table>): bytes
    requires ts != []
  {
    var t := ts[|ts| - 1];
    if |ts| == 1 then t.largest
    else
      var hi := HighKey(ts[..|ts| - 1]);
      if Lt(hi, t.largest) then t.largest else hi
  }

  method KeyRange(ts: seq<Table>) returns (range: Option<(bytes, bytes)>)
    ensures range == if ts == [] then None else Some((LowKey(ts), HighKey(ts)))
  {
    if ts == [] { return None; }
    var lo, hi := ts[0].smallest, ts[0].largest;
    for i := 1 to |ts|
      invariant lo == LowKey(ts[..i]) && hi == HighKey(ts[..i])
    {
      assert ts[..i + 1][..i] == ts[..i];
      if Lt(ts[i].smallest, lo) { lo := ts[i].smallest; }
      if Lt(hi, ts[i].largest) { hi := ts[i].largest; }
    }
    assert ts[..|ts|] == ts;
    return Some((lo, hi));
  }

  predicate Meets(t: Table, lo: bytes, hi: bytes) {
    Leq(lo, t.largest) && Leq(t.smallest, hi)
  }

  function Overlapping(ts: seq<Table>, lo: bytes, hi: bytes): seq<Table> {
    if ts == [] then []
    else (if Meets(ts[0], lo, hi) then [ts[0]] else []) + Overlapping(ts[1..], lo, hi)
  }

  /** A job that moves `upper` from `level` into the level below. */
  function JobFor(levels: Levels, level: nat, upper: seq<Table>): Job
    requires upper != [] && level + 1 < |levels|
  {
    Job(level, upper, Overlapping(levels[level + 1], LowKey(upper), HighKey(upper)))
  }

  /** The first level from `l` on that is over its limit. */
  function PickDeep(o: Options, levels: Levels, l: nat): Option<Job>
    requires 1 <= l && |levels| == o.maxLevels
    decreases o.maxLevels - l
  {
    if l + 1 >= o.maxLevels then None
    else if LevelBytes(levels[l]) > LevelLimit(o, l) then
      if levels[l] == [] then None else Some(JobFor(levels, l, [levels[l][0]]))
    else PickDeep(o, levels, l + 1)
  }

  function Pick(o: Options, levels: Levels): Option<Job>
    requires o.Usable() && |levels| == o.maxLevels
  {
    if |levels[0]| >= o.l0Trigger then Some(JobFor(levels, 0, levels[0])) else PickDeep(o, levels, 1)
  }

  /** A job leaves the first level that is over its limit; L0 comes first. */
  ghost predicate FirstOver(o: Options, levels: Levels, job: Job)
    requires |levels| == o.maxLevels
  {
    && job.level + 1 < o.maxLevels
    && (job.level == 0 ==> |levels[0]| >= o.l0Trigger)
    && (job.level > 0 ==> |levels[0]| < o.l0Trigger && LevelBytes(levels[job.level]) > LevelLimit(o, job.level))
    && forall l :: 1 <= l < job.level ==> LevelBytes(levels[l]) <= LevelLimit(o, l)
  }

  lemma {:induction false} PickDeepFirst(o: Options, levels: Levels, l: nat)
    requires 1 <= l && |levels| == o.maxLevels && PickDeep(o, levels, l).Some?
    ensures var job := PickDeep(o, levels, l).value;
            && l <= job.level < o.maxLevels - 1 && LevelBytes(levels[job.level]) > LevelLimit(o, job.level)
            && forall i :: l <= i < job.level ==> LevelBytes(levels[i]) <= LevelLimit(o, i)
    decreases o.maxLevels - l
  {
    hide LevelLimit, LevelBytes, Overlapping, LowKey, HighKey;
    if l + 1 < o.maxLevels && LevelBytes(levels[l]) <= LevelLimit(o, l) { PickDeepFirst(o, levels, l + 1); }
  }

  lemma PickIsFirst(o: Options, levels: Levels)
    requires o.Usable() && |levels| == o.maxLevels && Pick(o, levels).Some?
    ensures FirstOver(o, levels, Pick(o, levels).value)
  {
    hide LevelLimit, LevelBytes, Overlapping, LowKey, HighKey, PickDeep;
    if |levels[0]| < o.l0Trigger { PickDeepFirst(o, levels, 1); }
  }

  method PickCompaction(o: Options, levels: Levels) returns (job: Option<Job>)
    requires o.Usable() && |levels| == o.maxLevels
    ensures job == Pick(o, levels)
  {
    if |levels[0]| >= o.l0Trigger {
      var range := KeyRange(levels[0]);
      var lower := Overlapping(levels[1], range.value.0, range.value.1);
      return Some(Job(0, levels[0], lower));
    }
    for level := 1 to o.maxLevels - 1
      invariant PickDeep(o, levels, 1) == PickDeep(o, levels, level)
    {
      if LevelBytes(levels[level]) > LevelLimit(o, level) {
        if levels[level] == [] { return None; }
        var upper := levels[level][0];
        var lower := Overlapping(levels[level + 1], upper.smallest, upper.largest);
        return Some(Job(level, [upper], lower));
      }
    }
    return None;
  }

  // ---------------------------------------------------------------- run_compaction

  function RunsNewestFirst(ts: seq<Table>): seq<seq<Record>> {
    if ts == [] then [] else [ts[|ts| - 1].recs] + RunsNewestFirst(ts[..|ts| - 1])
  }

  function RunsInOrder(ts: seq<Table>): seq<seq<Record>> {
    if ts == [] then [] else [ts[0].recs] + RunsInOrder(ts[1..])
  }

  /** The merge inputs: upper tables newest first, then the lower ones. */
  function Streams(job: Job): seq<seq<Record>> {
    RunsNewestFirst(job.upper) + RunsInOrder(job.lower)
  }

  predicate Drops(r: Record, lastLevel: bool, watermark: nat) {
    r.ik.kind == Delete && r.ik.seqno <= watermark && lastLevel
  }

  function DropTombstones(rs: seq<Record>, lastLevel: bool, watermark: nat): seq<Record> {
    if rs == [] then []
    else (if Drops(rs[0], lastLevel, watermark) then [] else [rs[0]]) + DropTombstones(rs[1..], lastLevel, watermark)
  }

  predicate IntoLastLevel(o: Options, job: Job) {
    job.level + 2 >= o.maxLevels
  }

  /** The records a compaction keeps, in key order. */
  function Kept(o: Options, job: Job, watermark: nat): seq<Record> {
    DropTombstones(FirstPerKey(MergeAll(Streams(job)), None), IntoLastLevel(o, job), watermark)
  }

  /** Output files: the current one is closed as soon as its size reaches the target. */
  function SplitFrom(rs: seq<Record>, cur: seq<Record>, size: nat, target: nat): seq<seq<Record>> {
    if rs == [] then (if cur == [] then [] else [cur])
    else
      var now := (if cur == [] then 0 else size) + MemTables.Cost(rs[0]);
      if now >= target then [cur + [rs[0]]] + SplitFrom(rs[1..], [], now, target)
      else SplitFrom(rs[1..], cur + [rs[0]], now, target)
  }

  function OutputRuns(o: Options, job: Job, watermark: nat): seq<seq<Record>> {
    SplitFrom(Kept(o, job, watermark), [], 0, o.targetFileSize)
  }

  function NewTable(fmt: Format, num: nat, run: seq<Record>): Table
    requires run != []
  {
    Table(num, run[0].ik.userKey, run[|run| - 1].ik.userKey, SizeOf(fmt, run), run)
  }

  predicate NoneEmpty(runs: seq<seq<Record>>) {
    forall i :: 0 <= i < |runs| ==> runs[i] != []
  }

  /** Output tables numbered from `num` on. */
  function NewTables(fmt: Format, runs: seq<seq<Record>>, num: nat): (ts: seq<Table>)
    requires NoneEmpty(runs)
    ensures |ts| == |runs|
  {
    if runs == [] then [] else [NewTable(fmt, num, runs[0])] + NewTables(fmt, runs[1..], num + 1)
  }

  function AddEdits(level: nat, ts: seq<Table>): seq<Edit> {
    if ts == [] then [] else AddEdits(level, ts[..|ts| - 1]) + [AddFile(MetaOf(level, ts[|ts| - 1]))]
  }

  function DeleteEdits(level: nat, ts: seq<Table>): seq<Edit> {
    if ts == [] then [] else DeleteEdits(level, ts[..|ts| - 1]) + [DeleteFile(level, ts[|ts| - 1].num)]
  }

  // ---------------------------------------------------------------- what is kept

  lemma {:induction false} RunsNewestFirstMembers(ts: seq<Table>, run: seq<Record>)
    ensures run in RunsNewestFirst(ts) <==> exists t :: t in ts && run == t.recs
  {
    if ts != [] {
      RunsNewestFirstMembers(ts[..|ts| - 1], run);
      assert ts == ts[..|ts| - 1] + [ts[|ts| - 1]];
    }
  }

  lemma {:induction false} RunsInOrderMembers(ts: seq<Table>, run: seq<Record>)
    ensures run in RunsInOrder(ts) <==> exists t :: t in ts && run == t.recs
  {
    if ts != [] {
      RunsInOrderMembers(ts[1..], run);
      assert ts == [ts[0]] + ts[1..];
    }
  }

  /** All records of the input tables. */
  function InputSet(job: Job): Source {
    LevelSet(job.upper) + LevelSet(job.lower)
  }

  lemma StreamsHold(job: Job, r: Record)
    ensures InSome(Streams(job), r) <==> r in InputSet(job)
  {
    var ss := Streams(job);
    hide LevelSet, RunsNewestFirst, RunsInOrder;
    if InSome(ss, r) {
      var i :| 0 <= i < |ss| && r in ss[i];
      RunsNewestFirstMembers(job.upper, ss[i]);
      RunsInOrderMembers(job.lower, ss[i]);
      assert ss[i] in RunsNewestFirst(job.upper) || ss[i] in RunsInOrder(job.lower);
      InLevelSet(job.upper, r);
      InLevelSet(job.lower, r);
    }
    if r in InputSet(job) {
      InLevelSet(job.upper, r);
      InLevelSet(job.lower, r);
      var t :| (t in job.upper || t in job.lower) && r in t.recs;
      RunsNewestFirstMembers(job.upper, t.recs);
      RunsInOrderMembers(job.lower, t.recs);
      assert t.recs in ss;
    }
  }

  lemma InLevelSet(ts: seq<Table>, r: Record)
    ensures r in LevelSet(ts) <==> exists t :: t in ts && r in t.recs
  {
  }

  ghost predicate InputsSorted(job: Job) {
    forall t :: t in job.upper || t in job.lower ==> Sorted(t.recs)
  }

  lemma StreamsSorted(job: Job)
    requires InputsSorted(job)
    ensures AllSorted(Streams(job))
  {
    hide Sorted;
    var ss := Streams(job);
    forall i | 0 <= i < |ss| ensures Sorted(ss[i]) {
      RunsNewestFirstMembers(job.upper, ss[i]);
      RunsInOrderMembers(job.lower, ss[i]);
      assert ss[i] in RunsNewestFirst(job.upper) || ss[i] in RunsInOrder(job.lower);
    }
  }

  lemma {:induction false} DropMembers(rs: seq<Record>, lastLevel: bool, watermark: nat, r: Record)
    ensures r in DropTombstones(rs, lastLevel, watermark) <==> r in rs && !Drops(r, lastLevel, watermark)
  {
    if rs != [] {
      hide Drops;
      DropMembers(rs[1..], lastLevel, watermark, r);
      assert rs == [rs[0]] + rs[1..];
    }
  }

  lemma {:induction false} DropIncreases(rs: seq<Record>, lastLevel: bool, watermark: nat)
    requires KeysIncrease(rs)
    ensures KeysIncrease(DropTombstones(rs, lastLevel, watermark))
  {
    if rs != [] {
      hide Drops, Lt;
      var tail := DropTombstones(rs[1..], lastLevel, watermark);
      DropIncreases(rs[1..], lastLevel, watermark);
      forall r | r in tail ensures Lt(rs[0].ik.userKey, r.ik.userKey) {
        DropMembers(rs[1..], lastLevel, watermark, r);
        var i :| 0 <= i < |rs[1..]| && rs[1..][i] == r;
        assert rs[i + 1] == r;
      }
    }
  }

  lemma KeptIsNewest(job: Job, f: seq<Record>, o: Record)
    requires InputsSorted(job) && f == FirstPerKey(MergeAll(Streams(job)), None) && o in f
    ensures NewestOfKey(InputSet(job), o)
  {
    var m := MergeAll(Streams(job));
    StreamsSorted(job);
    MergeIsSorted(Streams(job));
    FirstPerKeyIsNewest(m, o);
    hide MergeAll, FirstPerKey, WeaklySorted;
    MergeMembers(Streams(job), o);
    StreamsHold(job, o);
    forall q | q in InputSet(job) && q.ik.userKey == o.ik.userKey ensures q.ik.seqno <= o.ik.seqno {
      StreamsHold(job, q);
      MergeMembers(Streams(job), q);
    }
  }

  /** A compaction writes the newest version of every input key, except tombstones dropped at
      the last level; its records have strictly increasing user keys. */
  lemma KeptKeepsNewest(o: Options, job: Job, watermark: nat)
    requires InputsSorted(job)
    ensures KeysIncrease(Kept(o, job, watermark))
    ensures KeepsNewest(InputSet(job), Contents(Kept(o, job, watermark)), IntoLastLevel(o, job), watermark)
  {
    var m := MergeAll(Streams(job));
    var f := FirstPerKey(m, None);
    var last := IntoLastLevel(o, job);
    var I, O := InputSet(job), Contents(Kept(o, job, watermark));
    StreamsSorted(job);
    MergeIsSorted(Streams(job));
    FirstPerKeyIncreases(m, None);
    DropIncreases(f, last, watermark);
    hide MergeAll, FirstPerKey, DropTombstones, IntoLastLevel, Streams, InputSet, NewestOfKey, KeysIncrease,
        WeaklySorted;
    forall r | r in O ensures NewestOfKey(I, r) {
      DropMembers(f, last, watermark, r);
      KeptIsNewest(job, f, r);
    }
    forall r | r in I ensures Survives(I, O, last, watermark, r) {
      StreamsHold(job, r);
      MergeMembers(Streams(job), r);
      FirstPerKeyCovers(m, None, r);
      var n :| n in f && n.ik.userKey == r.ik.userKey && !KeyLt(r.ik, n.ik);
      KeptIsNewest(job, f, n);
      DropMembers(f, last, watermark, n);
    }
  }

  /** Exactly the records a compaction keeps: the newest version of each input key, unless that is a
      tombstone at or below the watermark and the output goes to the last level. */
  lemma KeptExactly(o: Options, job: Job, watermark: nat, r: Record)
    requires InputsSorted(job) && OneWritePerSeq(InputSet(job))
    ensures r in Kept(o, job, watermark) <==>
            && NewestOfKey(InputSet(job), r)
            && !(r.ik.kind == Delete && r.ik.seqno <= watermark && job.level + 2 >= o.maxLevels)
  {
    var m := MergeAll(Streams(job));
    var f, last := FirstPerKey(m, None), IntoLastLevel(o, job);
    DropMembers(f, last, watermark, r);
    StreamsSorted(job);
    MergeIsSorted(Streams(job));
    assert Drops(r, last, watermark) <==> r.ik.kind == Delete && r.ik.seqno <= watermark && job.level + 2 >= o.maxLevels;
    hide MergeAll, FirstPerKey, DropTombstones, Streams, InputSet, WeaklySorted, Drops, IntoLastLevel;
    if r in f { KeptIsNewest(job, f, r); }
    if NewestOfKey(InputSet(job), r) {
      StreamsHold(job, r);
      MergeMembers(Streams(job), r);
      FirstPerKeyCovers(m, None, r);
      var n :| n in f && n.ik.userKey == r.ik.userKey && !KeyLt(r.ik, n.ik);
      KeptIsNewest(job, f, n);
    }
  }

  // ---------------------------------------------------------------- how it is split into files

  function Concat(runs: seq<seq<Record>>): seq<Record> {
    if runs == [] then [] else runs[0] + Concat(runs[1..])
  }

  /** Splitting keeps every record, in order, and writes no empty file. */
  lemma {:induction false} SplitKeepsAll(rs: seq<Record>, cur: seq<Record>, size: nat, target: nat)
    ensures Concat(SplitFrom(rs, cur, size, target)) == cur + rs
    ensures NoneEmpty(SplitFrom(rs, cur, size, target))
    decreases rs
  {
    if rs == [] {
      if cur != [] { assert [cur][1..] == []; }
    } else {
      var now := (if cur == [] then 0 else size) + MemTables.Cost(rs[0]);
      assert cur + rs == cur + [rs[0]] + rs[1..];
      if now >= target {
        SplitKeepsAll(rs[1..], [], now, target);
        var more := SplitFrom(rs[1..], [], now, target);
        assert ([cur + [rs[0]]] + more)[1..] == more;
      } else {
        SplitKeepsAll(rs[1..], cur + [rs[0]], now, target);
      }
    }
  }

  /** Where the output is cut: a file is closed by the very record that takes it to the target
      size, and only the last file may stay below it. */
  ghost predicate CutAt(run: seq<Record>, target: nat, last: bool) {
    && run != []
    && (!last ==> MemTables.CostOf(run) >= target)
    && (|run| > 1 ==> MemTables.CostOf(run[..|run| - 1]) < target)
  }

  lemma {:induction false} SplitBySize(rs: seq<Record>, cur: seq<Record>, size: nat, target: nat, i: nat)
    requires cur != [] ==> size == MemTables.CostOf(cur) < target
    requires i < |SplitFrom(rs, cur, size, target)|
    ensures var runs := SplitFrom(rs, cur, size, target); CutAt(runs[i], target, i == |runs| - 1)
    decreases rs
  {
    if rs == [] {
      PrefixCost(cur);
    } else {
      hide MemTables.Cost;
      var now := (if cur == [] then 0 else size) + MemTables.Cost(rs[0]);
      var run := cur + [rs[0]];
      assert run[..|run| - 1] == cur;
      if now < target {
        SplitBySize(rs[1..], run, now, target, i);
      } else if i > 0 {
        SplitBySize(rs[1..], [], now, target, i - 1);
      }
    }
  }

  /** So the output files of a job are closed by the target size, counting key, value and 16 for each
      record. */
  lemma OutputSizes(o: Options, job: Job, watermark: nat, i: nat)
    requires i < |OutputRuns(o, job, watermark)|
    ensures var runs := OutputRuns(o, job, watermark); CutAt(runs[i], o.targetFileSize, i == |runs| - 1)
  {
    hide Kept, SplitFrom, CutAt;
    SplitBySize(Kept(o, job, watermark), [], 0, o.targetFileSize, i);
  }

  lemma PrefixCost(rs: seq<Record>)
    ensures rs != [] ==> MemTables.CostOf(rs[..|rs| - 1]) <= MemTables.CostOf(rs)
  {
  }

  lemma {:induction false} ConcatMembers(runs: seq<seq<Record>>, r: Record)
    ensures r in Concat(runs) <==> InSome(runs, r)
  {
    if runs != [] {
      ConcatMembers(runs[1..], r);
      if InSome(runs[1..], r) {
        var i :| 0 <= i < |runs[1..]| && r in runs[1..][i];
        assert r in runs[i + 1];
      }
      if InSome(runs, r) && r !in runs[0] {
        var i :| 0 <= i < |runs| && r in runs[i];
        assert r in runs[1..][i - 1];
      }
    }
  }

  lemma ConcatIncreases(a: seq<Record>, b: seq<Record>)
    requires KeysIncrease(a + b)
    ensures KeysIncrease(a) && KeysIncrease(b)
    ensures forall x, y :: x in a && y in b ==> Lt(x.ik.userKey, y.ik.userKey)
  {
    hide Lt;
    var all := a + b;
    assert forall i :: 0 <= i < |a| ==> a[i] == all[i];
    assert forall i :: 0 <= i < |b| ==> b[i] == all[|a| + i];
  }

  lemma FirstInConcat(runs: seq<seq<Record>>, j: nat)
    requires j < |runs| && runs[j] != []
    ensures runs[j][0] in Concat(runs)
  {
    ConcatMembers(runs, runs[j][0]);
    assert runs[j][0] in runs[j];
  }

  lemma {:induction false} NewTablesAt(fmt: Format, runs: seq<seq<Record>>, num: nat, i: nat)
    requires NoneEmpty(runs) && i < |runs|
    ensures NewTables(fmt, runs, num)[i] == NewTable(fmt, num + i, runs[i])
  {
    hide NewTable;
    if i > 0 { NewTablesAt(fmt, runs[1..], num + 1, i - 1); }
  }

  lemma {:induction false} RunsIncrease(runs: seq<seq<Record>>, i: nat, j: nat)
    requires KeysIncrease(Concat(runs)) && NoneEmpty(runs) && i <= j < |runs|
    ensures Sorted(runs[i])
    ensures i < j ==> Lt(runs[i][|runs[i]| - 1].ik.userKey, runs[j][0].ik.userKey)
  {
    hide Sorted, KeysIncrease;
    ConcatIncreases(runs[0], Concat(runs[1..]));
    KeysIncreaseSorted(runs[0]);
    if i > 0 {
      RunsIncrease(runs[1..], i - 1, j - 1);
    } else if j > 0 {
      FirstInConcat(runs[1..], j - 1);
    }
  }

  /** Output files of increasing records are sorted runs with increasing, disjoint ranges. */
  lemma NewTablesDisjoint(fmt: Format, runs: seq<seq<Record>>, num: nat)
    requires KeysIncrease(Concat(runs)) && NoneEmpty(runs)
    ensures DisjointLevel(NewTables(fmt, runs, num))
  {
    hide Sorted, KeysIncrease, NewTables, SizeOf, Lt;
    var ts := NewTables(fmt, runs, num);
    forall i, j | 0 <= i < j < |ts| ensures RangeBelow(ts[i], ts[j]) {
      NewTablesAt(fmt, runs, num, i);
      NewTablesAt(fmt, runs, num, j);
      RunsIncrease(runs, i, j);
    }
  }
}
