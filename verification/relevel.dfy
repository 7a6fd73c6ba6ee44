/** What a compaction does to the levels: `maybe_compact` applies the edits to the collected
    metadata and rebuilds the version (src/db.rs 417-461, src/compact.rs 45-96). */
module Releveling {
  import opened ByteStrings
  import opened Records
  import opened Builder
  import opened ManifestLog
  import opened Versions
  import opened Sources
  import opened EngineOptions
  import opened Compaction

  // ---------------------------------------------------------------- edits on a catalog

  ghost predicate DeletedBy(level: nat, ts: seq<Table>, m: FileMeta) {
    m.level == level && exists t :: t in ts && t.num == m.num
  }

  lemma {:induction false} ApplyAdds(c: Catalog, level: nat, ts: seq<Table>)
    ensures ApplyAll(c, AddEdits(level, ts)) == c.(files := c.files + CollectLevel(level, ts))
  {
    if ts == [] {
      assert c.files + [] == c.files;
    } else {
      var front, t := ts[..|ts| - 1], ts[|ts| - 1];
      ApplyAdds(c, level, front);
      var es := AddEdits(level, ts);
      assert es[..|es| - 1] == AddEdits(level, front) && es[|es| - 1] == AddFile(MetaOf(level, t));
      assert c.files + CollectLevel(level, front) + [MetaOf(level, t)] == c.files + CollectLevel(level, ts);
    }
  }

  lemma {:induction false} RetainMembers(files: seq<FileMeta>, level: nat, num: nat, m: FileMeta)
    ensures m in Retain(files, level, num) <==> m in files && !(m.level == level && m.num == num)
  {
    if files != [] {
      RetainMembers(files[1..], level, num, m);
      assert files == [files[0]] + files[1..];
    }
  }

  lemma {:induction false} RetainDistinct(files: seq<FileMeta>, level: nat, num: nat)
    requires DistinctNums(files)
    ensures DistinctNums(Retain(files, level, num))
  {
    if files != [] {
      RetainDistinct(files[1..], level, num);
      var tail := Retain(files[1..], level, num);
      forall m | m in tail ensures m.num != files[0].num {
        RetainMembers(files[1..], level, num, m);
        var i :| 0 <= i < |files[1..]| && files[1..][i] == m;
        assert files[i + 1] == m;
      }
    }
  }

  lemma {:induction false} ApplyDeletes(c: Catalog, level: nat, ts: seq<Table>, m: FileMeta)
    ensures m in ApplyAll(c, DeleteEdits(level, ts)).files <==> m in c.files && !DeletedBy(level, ts, m)
    ensures DistinctNums(c.files) ==> DistinctNums(ApplyAll(c, DeleteEdits(level, ts)).files)
    ensures var d := ApplyAll(c, DeleteEdits(level, ts)); d.nextFileNum == c.nextFileNum && d.lastSeq == c.lastSeq
  {
    if ts != [] {
      hide DistinctNums;
      var front, t := ts[..|ts| - 1], ts[|ts| - 1];
      ApplyDeletes(c, level, front, m);
      var es := DeleteEdits(level, ts);
      assert es[..|es| - 1] == DeleteEdits(level, front) && es[|es| - 1] == DeleteFile(level, t.num);
      var d := ApplyAll(c, DeleteEdits(level, front));
      RetainMembers(d.files, level, t.num, m);
      if DistinctNums(c.files) { RetainDistinct(d.files, level, t.num); }
      assert ts == front + [t];
      assert DeletedBy(level, ts, m) <==> DeletedBy(level, front, m) || (m.level == level && m.num == t.num);
    }
  }

  /** The edits of one compaction, in the order they are logged. */
  function CompactEdits(job: Job, added: seq<Table>, next: nat): seq<Edit> {
    AddEdits(job.level + 1, added) + (DeleteEdits(job.level, job.upper) + DeleteEdits(job.level + 1, job.lower))
    + [SetNextFileNum(next)]
  }

  ghost predicate AfterCompact(metas: seq<FileMeta>, job: Job, added: seq<Table>, m: FileMeta) {
    && (m in metas || m in CollectLevel(job.level + 1, added))
    && !DeletedBy(job.level, job.upper, m) && !DeletedBy(job.level + 1, job.lower, m)
  }

  /** What a list of files holds after the additions and deletions of a compaction. */
  lemma ApplyMoves(c: Catalog, job: Job, added: seq<Table>, m: FileMeta)
    ensures var moves := DeleteEdits(job.level, job.upper) + DeleteEdits(job.level + 1, job.lower);
            var d := ApplyAll(c, AddEdits(job.level + 1, added) + moves);
            && (m in d.files <==> AfterCompact(c.files, job, added, m))
            && (DistinctNums(c.files + CollectLevel(job.level + 1, added)) ==> DistinctNums(d.files))
            && d.nextFileNum == c.nextFileNum && d.lastSeq == c.lastSeq
  {
    hide DistinctNums, DeletedBy, ApplyAll, CollectLevel;
    var adds := AddEdits(job.level + 1, added);
    var ups, lows := DeleteEdits(job.level, job.upper), DeleteEdits(job.level + 1, job.lower);
    ApplyAdds(c, job.level + 1, added);
    var c1 := ApplyAll(c, adds);
    ApplyDeletes(c1, job.level, job.upper, m);
    var c2 := ApplyAll(c1, ups);
    ApplyDeletes(c2, job.level + 1, job.lower, m);
    ApplySplit(c1, ups, lows);
    ApplySplit(c, adds, ups + lows);
  }

  lemma ApplyCompact(c: Catalog, job: Job, added: seq<Table>, next: nat, m: FileMeta)
    ensures var d := ApplyAll(c, CompactEdits(job, added, next));
            && (m in d.files <==> AfterCompact(c.files, job, added, m))
            && (DistinctNums(c.files + CollectLevel(job.level + 1, added)) ==> DistinctNums(d.files))
            && d.nextFileNum == next && d.lastSeq == c.lastSeq
  {
    hide DistinctNums, AfterCompact, ApplyAll, CollectLevel;
    var moves := AddEdits(job.level + 1, added)
        + (DeleteEdits(job.level, job.upper) + DeleteEdits(job.level + 1, job.lower));
    ApplyMoves(c, job, added, m);
    ApplyOne(ApplyAll(c, moves), SetNextFileNum(next));
    ApplySplit(c, moves, [SetNextFileNum(next)]);
  }

  lemma ApplyOne(c: Catalog, e: Edit)
    ensures ApplyAll(c, [e]) == Applied(c, e)
  {
    assert [e][..0] == [];
  }

  // ---------------------------------------------------------------- the step on levels

  /** The files of the directory once the new tables are written. */
  function WithTables(files: Files, ts: seq<Table>): Files {
    if ts == [] then files else WithTables(files, ts[..|ts| - 1])[ts[|ts| - 1].num := ts[|ts| - 1].recs]
  }

  function LevelsAfter(fmt: Format, levels: Levels, files: Files, edits: seq<Edit>): Levels {
    FromMetas(fmt, files, ApplyAll(Catalog(CollectMetas(levels), 0, 0), edits).files, |levels|)
  }

  /** A file number names one table of one level. */
  ghost predicate UniqueNums(levels: Levels) {
    forall l, k, t, u :: 0 <= l < |levels| && 0 <= k < |levels| && t in levels[l] && u in levels[k] && t.num == u.num ==> l == k && t == u
  }

  ghost predicate NumsBelow(levels: Levels, next: nat) {
    forall l, t :: 0 <= l < |levels| && t in levels[l] ==> t.num < next
  }

  /** Every table once, its file present and described truly, numbers below the counter. */
  ghost predicate Sound(fmt: Format, files: Files, levels: Levels, next: nat) {
    WellFormed(fmt, files, levels) && UniqueNums(levels) && NumsBelow(levels, next)
  }

  ghost predicate FreshTables(fmt: Format, ts: seq<Table>, next: nat) {
    forall i :: 0 <= i < |ts| ==> ts[i].num == next + i && ts[i].recs != [] && ts[i] == NewTable(fmt, next + i, ts[i].recs)
  }

  lemma FreshFront(fmt: Format, ts: seq<Table>, next: nat)
    requires FreshTables(fmt, ts, next) && ts != []
    ensures FreshTables(fmt, ts[..|ts| - 1], next) && ts[|ts| - 1].num == next + |ts| - 1
  {
    hide NewTable;
  }

  lemma WithTablesStep(files: Files, ts: seq<Table>)
    requires ts != []
    ensures WithTables(files, ts) == WithTables(files, ts[..|ts| - 1])[ts[|ts| - 1].num := ts[|ts| - 1].recs]
  {
  }

  lemma {:induction false} WithTablesAt(fmt: Format, files: Files, ts: seq<Table>, next: nat, n: nat)
    requires FreshTables(fmt, ts, next)
    ensures n in WithTables(files, ts) <==> n in files || next <= n < next + |ts|
    ensures n in WithTables(files, ts) ==>
              WithTables(files, ts)[n] == if next <= n < next + |ts| then ts[n - next].recs else files[n]
  {
    hide FreshTables;
    if ts != [] {
      hide *;
      var front, t := ts[..|ts| - 1], ts[|ts| - 1];
      var before, after := WithTables(files, front), WithTables(files, ts);
      FreshFront(fmt, ts, next);
      WithTablesAt(fmt, files, front, next, n);
      WithTablesStep(files, ts);
      if n == t.num {
        assert ts[n - next] == t;
      } else if n in after {
        assert after[n] == before[n];
        assert next <= n < next + |front| ==> front[n - next] == ts[n - next];
      }
    }
  }

  lemma {:induction false} CollectLevelDistinct(level: nat, ts: seq<Table>)
    requires DistinctTables(ts)
    ensures DistinctNums(CollectLevel(level, ts))
  {
    if ts != [] {
      var front, last := ts[..|ts| - 1], ts[|ts| - 1];
      CollectLevelDistinct(level, front);
      forall m | m in CollectLevel(level, front) ensures m.num != last.num {
        CollectLevelMembers(level, front, m);
        var t :| t in front && m == MetaOf(level, t);
        var i :| 0 <= i < |front| && front[i] == t;
        assert ts[i] == t;
      }
    }
  }

  lemma {:induction false} CollectUpToDistinct(levels: Levels, n: nat)
    requires n <= |levels| && UniqueNums(levels) && forall l :: 0 <= l < |levels| ==> DistinctTables(levels[l])
    ensures DistinctNums(CollectUpTo(levels, n))
  {
    hide *;
    CollectUpToStep(levels, n);
    if n > 0 {
      CollectUpToDistinct(levels, n - 1);
      CollectLevelDistinct(n - 1, levels[n - 1]);
      var a, b := CollectUpTo(levels, n - 1), CollectLevel(n - 1, levels[n - 1]);
      forall x, y | x in a && y in b ensures x.num != y.num {
        CollectUpToMembers(levels, n - 1, x);
        CollectLevelMembers(n - 1, levels[n - 1], y);
        OtherLevelNum(levels, n - 1, x, y);
      }
      DistinctAppend(a, b);
    } else {
      NoneDistinct();
    }
  }

  lemma CollectUpToStep(levels: Levels, n: nat)
    requires n <= |levels|
    ensures CollectUpTo(levels, n) == if n == 0 then [] else CollectUpTo(levels, n - 1) + CollectLevel(n - 1, levels[n - 1])
  {
  }

  lemma NoneDistinct()
    ensures DistinctNums([])
  {
  }

  lemma OtherLevelNum(levels: Levels, l: nat, x: FileMeta, y: FileMeta)
    requires l < |levels| && UniqueNums(levels) && HasMeta(levels, x) && x.level < l
    requires exists t :: t in levels[l] && y == MetaOf(l, t)
    ensures x.num != y.num
  {
  }

  lemma DistinctAppend(a: seq<FileMeta>, b: seq<FileMeta>)
    requires DistinctNums(a) && DistinctNums(b) && forall x, y :: x in a && y in b ==> x.num != y.num
    ensures DistinctNums(a + b)
  {
    forall i, j | 0 <= i < j < |a + b| ensures (a + b)[i].num != (a + b)[j].num {
      if i < |a| && j >= |a| { assert a[i] in a && b[j - |a|] in b; }
    }
  }

  /** `collect_file_metas` of a sound version lists each file number once. */
  lemma CollectDistinct(fmt: Format, files: Files, levels: Levels, next: nat)
    requires Sound(fmt, files, levels, next)
    ensures DistinctNums(CollectMetas(levels)) && SameFiles(CollectMetas(levels), levels)
  {
    forall l | 0 <= l < |levels| ensures DistinctTables(levels[l]) {
      OrderedLevelIsStrict(fmt, files, l, levels[l]);
      hide WellFormed, TableLt;
      forall i, j | 0 <= i < j < |levels[l]| ensures levels[l][i].num != levels[l][j].num {
        TableLtOrder(l, levels[l][i], levels[l][j], levels[l][j]);
        assert levels[l][i] in levels[l] && levels[l][j] in levels[l];
      }
    }
    hide WellFormed, UniqueNums, DistinctTables, CollectUpTo, HasMeta;
    CollectUpToDistinct(levels, |levels|);
    forall m ensures m in CollectMetas(levels) <==> HasMeta(levels, m) { CollectMembers(levels, m); }
  }

  // ---------------------------------------------------------------- jobs

  /** What `pick_compaction` guarantees of the job it returns. */
  ghost predicate JobOf(levels: Levels, job: Job) {
    && job.level + 1 < |levels| && job.upper != []
    && (job.level > 0 ==> levels[job.level] != [])
    && job.upper == (if job.level == 0 then levels[0] else [levels[job.level][0]])
    && job.lower == Overlapping(levels[job.level + 1], LowKey(job.upper), HighKey(job.upper))
  }

  lemma {:induction false} PickDeepJob(o: Options, levels: Levels, l: nat)
    requires 1 <= l && |levels| == o.maxLevels
    ensures PickDeep(o, levels, l).Some? ==> JobOf(levels, PickDeep(o, levels, l).value)
    decreases o.maxLevels - l
  {
    if l + 1 < o.maxLevels {
      hide Overlapping, LevelLimit, LevelBytes;
      if LevelBytes(levels[l]) <= LevelLimit(o, l) { PickDeepJob(o, levels, l + 1); }
    }
  }

  lemma PickJob(o: Options, levels: Levels)
    requires o.Usable() && |levels| == o.maxLevels
    ensures Pick(o, levels).Some? ==> JobOf(levels, Pick(o, levels).value)
  {
    PickDeepJob(o, levels, 1);
  }

  lemma {:induction false} OverlappingMembers(ts: seq<Table>, lo: bytes, hi: bytes, t: Table)
    ensures t in Overlapping(ts, lo, hi) <==> t in ts && Meets(t, lo, hi)
  {
    if ts != [] {
      hide Meets;
      OverlappingMembers(ts[1..], lo, hi, t);
      assert ts == [ts[0]] + ts[1..];
    }
  }

  lemma {:induction false} Hull(ts: seq<Table>, t: Table)
    requires ts != [] && t in ts
    ensures Leq(LowKey(ts), t.smallest) && Leq(t.largest, HighKey(ts))
  {
    if |ts| > 1 {
      var front, last := ts[..|ts| - 1], ts[|ts| - 1];
      LtTotal(last.smallest, LowKey(front));
      LtTotal(last.largest, HighKey(front));
      if t != last {
        assert ts == front + [last];
        Hull(front, t);
        if LowKey(front) != t.smallest && Lt(last.smallest, LowKey(front)) {
          LtTrans(last.smallest, LowKey(front), t.smallest);
        }
        if t.largest != HighKey(front) && Lt(HighKey(front), last.largest) {
          LtTrans(t.largest, HighKey(front), last.largest);
        }
      }
    }
  }

  /** The whole table lies on one side of every key of the set. */
  ghost predicate Clear(t: Table, I: Source) {
    || (forall r :: r in I ==> Lt(t.largest, r.ik.userKey))
    || (forall r :: r in I ==> Lt(r.ik.userKey, t.smallest))
  }

  lemma LeqLt(a: bytes, b: bytes, c: bytes)
    ensures Leq(a, b) && Lt(b, c) ==> Lt(a, c)
    ensures Lt(a, b) && Leq(b, c) ==> Lt(a, c)
    ensures Leq(a, b) && Leq(b, c) ==> Leq(a, c)
  {
    if a != b && Lt(a, b) && b != c && Lt(b, c) { LtTrans(a, b, c); }
  }

  lemma LeqAnti(a: bytes, b: bytes)
    ensures !(Leq(a, b) && Lt(b, a))
    ensures Leq(a, b) || Lt(b, a)
  {
    LtTotal(a, b);
    if Lt(b, a) { LtAsym(b, a); }
    if Lt(a, b) { LtAsym(a, b); }
  }

  /** A lower table that reaches the hull lies wholly right of a table left of the hull, and
      the other way round: between them nothing else of the level can lie. */
  lemma LowerBeside(fmt: Format, files: Files, a: Table, b: Table, lo: bytes, hi: bytes)
    requires WellFormedTable(fmt, files, a) && WellFormedTable(fmt, files, b)
    requires RangeBelow(a, b) || RangeBelow(b, a)
    requires Meets(b, lo, hi)
    ensures Lt(a.largest, lo) ==> RangeBelow(a, b)
    ensures Lt(hi, a.smallest) ==> RangeBelow(b, a)
  {
    RangeOf(fmt, files, a, a.recs[0]);
    RangeOf(fmt, files, b, b.recs[0]);
    hide WellFormedTable, Lt;
    if Lt(a.largest, lo) && RangeBelow(b, a) {
      LeqLt(lo, b.largest, a.smallest);
      LeqLt(lo, a.smallest, a.largest);
      LtAsym(a.largest, lo);
    }
    if Lt(hi, a.smallest) && RangeBelow(a, b) {
      LeqLt(a.smallest, a.largest, b.smallest);
      LeqLt(a.smallest, b.smallest, hi);
      LtAsym(hi, a.smallest);
    }
  }

  lemma DisjointPair(ts: seq<Table>, a: Table, b: Table)
    requires DisjointLevel(ts) && a in ts && b in ts && a != b
    ensures RangeBelow(a, b) || RangeBelow(b, a)
  {
    hide RangeBelow;
    var i :| 0 <= i < |ts| && ts[i] == a;
    var j :| 0 <= j < |ts| && ts[j] == b;
  }

  /** The hull argument: a table of the lower level that is not an input is clear of all inputs. */
  lemma NonInputClear(fmt: Format, files: Files, levels: Levels, job: Job, t: Table)
    requires WellFormed(fmt, files, levels) && JobOf(levels, job)
    requires t in levels[job.level + 1] && t !in job.lower
    ensures Clear(t, InputSet(job))
  {
    var lo, hi := LowKey(job.upper), HighKey(job.upper);
    var low := levels[job.level + 1];
    OverlappingMembers(low, lo, hi, t);
    LeqAnti(lo, t.largest);
    LeqAnti(t.smallest, hi);
    assert OrderedLevel(job.level + 1, low);
    forall r | r in InputSet(job)
      ensures Lt(t.largest, lo) ==> Lt(t.largest, r.ik.userKey)
      ensures Lt(hi, t.smallest) ==> Lt(r.ik.userKey, t.smallest) {
      InputBeside(fmt, files, levels, job, t, r);
    }
  }

  lemma InputBeside(fmt: Format, files: Files, levels: Levels, job: Job, t: Table, r: Record)
    requires WellFormed(fmt, files, levels) && JobOf(levels, job)
    requires t in levels[job.level + 1] && t !in job.lower && r in InputSet(job)
    ensures Lt(t.largest, LowKey(job.upper)) ==> Lt(t.largest, r.ik.userKey)
    ensures Lt(HighKey(job.upper), t.smallest) ==> Lt(r.ik.userKey, t.smallest)
  {
    hide WellFormed, JobOf, LowKey, HighKey, Lt;
    InLevelSet(job.upper, r);
    InLevelSet(job.lower, r);
    if u :| u in job.upper && r in u.recs {
      UpperBeside(fmt, files, levels, job, t, u, r);
    } else {
      var u :| u in job.lower && r in u.recs;
      LowBeside(fmt, files, levels, job, t, u, r);
    }
  }

  lemma UpperBeside(fmt: Format, files: Files, levels: Levels, job: Job, t: Table, u: Table, r: Record)
    requires WellFormed(fmt, files, levels) && JobOf(levels, job) && u in job.upper && r in u.recs
    ensures Lt(t.largest, LowKey(job.upper)) ==> Lt(t.largest, r.ik.userKey)
    ensures Lt(HighKey(job.upper), t.smallest) ==> Lt(r.ik.userKey, t.smallest)
  {
    hide WellFormed, WellFormedTable, Overlapping, LowKey, HighKey, Lt;
    var lo, hi := LowKey(job.upper), HighKey(job.upper);
    Hull(job.upper, u);
    TableOf(fmt, files, levels, job.level, u);
    RangeOf(fmt, files, u, r);
    LeqLt(lo, u.smallest, r.ik.userKey);
    LeqLt(t.largest, lo, r.ik.userKey);
    LeqLt(r.ik.userKey, u.largest, hi);
    LeqLt(r.ik.userKey, hi, t.smallest);
  }

  lemma LowOrder(fmt: Format, files: Files, levels: Levels, job: Job, t: Table, u: Table)
    requires WellFormed(fmt, files, levels) && JobOf(levels, job) && u in job.lower
    requires t in levels[job.level + 1] && t !in job.lower
    ensures WellFormedTable(fmt, files, u)
    ensures Lt(t.largest, LowKey(job.upper)) ==> RangeBelow(t, u)
    ensures Lt(HighKey(job.upper), t.smallest) ==> RangeBelow(u, t)
  {
    hide WellFormedTable, Overlapping, LowKey, HighKey, Meets, RangeBelow, WellFormed, DisjointLevel;
    var low := levels[job.level + 1];
    OverlappingMembers(low, LowKey(job.upper), HighKey(job.upper), u);
    TableOf(fmt, files, levels, job.level + 1, t);
    TableOf(fmt, files, levels, job.level + 1, u);
    LevelDisjoint(fmt, files, levels, job.level + 1);
    DisjointPair(low, t, u);
    LowerBeside(fmt, files, t, u, LowKey(job.upper), HighKey(job.upper));
  }

  lemma LowBeside(fmt: Format, files: Files, levels: Levels, job: Job, t: Table, u: Table, r: Record)
    requires WellFormed(fmt, files, levels) && JobOf(levels, job) && u in job.lower && r in u.recs
    requires t in levels[job.level + 1] && t !in job.lower
    ensures Lt(t.largest, LowKey(job.upper)) ==> Lt(t.largest, r.ik.userKey)
    ensures Lt(HighKey(job.upper), t.smallest) ==> Lt(r.ik.userKey, t.smallest)
  {
    hide WellFormed, WellFormedTable, LowKey, HighKey, Lt;
    LowOrder(fmt, files, levels, job, t, u);
    RangeOf(fmt, files, u, r);
    LeqLt(t.largest, u.smallest, r.ik.userKey);
    LeqLt(r.ik.userKey, u.largest, t.smallest);
  }

  lemma LevelDisjoint(fmt: Format, files: Files, levels: Levels, l: nat)
    requires WellFormed(fmt, files, levels) && 0 < l < |levels|
    ensures DisjointLevel(levels[l])
  {
    assert OrderedLevel(l, levels[l]);
  }

  lemma TableOf(fmt: Format, files: Files, levels: Levels, l: nat, t: Table)
    requires WellFormed(fmt, files, levels) && l < |levels| && t in levels[l]
    ensures WellFormedTable(fmt, files, t)
  {
    hide WellFormedTable, OrderedLevel;
    var i :| 0 <= i < |levels[l]| && levels[l][i] == t;
  }
}
