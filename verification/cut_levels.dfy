/** The levels `open` rebuilds when the edits of a compaction were logged only in part
    (src/db.rs 428-447, src/version.rs 19-51). */
module CutLevels {
  import opened Builder
  import opened ManifestLog
  import opened Versions
  import opened Sources
  import opened Compaction
  import opened Releveling
  import opened CompactedLevels

  // ---------------------------------------------------------------- the edits before the cut

  /** How many output files, upper inputs and lower inputs the first `m` edits deal with. */
  function AddsIn(s: Step, m: nat): (n: nat)
    ensures n <= |s.added|
  {
    if m < |s.added| then m else |s.added|
  }

  function UpsIn(s: Step, m: nat): (n: nat)
    ensures n <= |s.job.upper|
  {
    if m < |s.added| then 0 else if m - |s.added| < |s.job.upper| then m - |s.added| else |s.job.upper|
  }

  function LowsIn(s: Step, m: nat): (n: nat)
    ensures n <= |s.job.lower|
  {
    var before := |s.added| + |s.job.upper|;
    if m < before then 0 else if m - before < |s.job.lower| then m - before else |s.job.lower|
  }

  /** The inputs already deleted and the outputs already added. */
  function CutJob(s: Step, m: nat): Job {
    Job(s.job.level, s.job.upper[..UpsIn(s, m)], s.job.lower[..LowsIn(s, m)])
  }

  function CutAdded(s: Step, m: nat): seq<Table> {
    s.added[..AddsIn(s, m)]
  }

  lemma {:induction false} AddEditsTake(level: nat, ts: seq<Table>, i: nat)
    requires i <= |ts|
    ensures |AddEdits(level, ts)| == |ts| && AddEdits(level, ts)[..i] == AddEdits(level, ts[..i])
  {
    if ts != [] {
      var front := ts[..|ts| - 1];
      AddEditsTake(level, front, if i < |ts| then i else |front|);
      if i < |ts| { assert front[..i] == ts[..i]; } else { assert ts[..i] == ts; }
    }
  }

  lemma {:induction false} DeleteEditsTake(level: nat, ts: seq<Table>, i: nat)
    requires i <= |ts|
    ensures |DeleteEdits(level, ts)| == |ts| && DeleteEdits(level, ts)[..i] == DeleteEdits(level, ts[..i])
  {
    if ts != [] {
      var front := ts[..|ts| - 1];
      DeleteEditsTake(level, front, if i < |ts| then i else |front|);
      if i < |ts| { assert front[..i] == ts[..i]; } else { assert ts[..i] == ts; }
    }
  }

  lemma TakeThree<T>(a: seq<T>, b: seq<T>, c: seq<T>, d: T, m: nat, i: nat, j: nat, k: nat)
    requires m <= |a| + |b| + |c|
    requires i == (if m < |a| then m else |a|)
    requires j == (if m < |a| then 0 else if m - |a| < |b| then m - |a| else |b|)
    requires k == (if m < |a| + |b| then 0 else if m - |a| - |b| < |c| then m - |a| - |b| else |c|)
    ensures (a + (b + c) + [d])[..m] == a[..i] + (b[..j] + c[..k])
  {
  }

  lemma EditCount(s: Step)
    ensures |s.Edits()| == |s.added| + |s.job.upper| + |s.job.lower| + 1
  {
    AddEditsTake(s.job.level + 1, s.added, 0);
    DeleteEditsTake(s.job.level, s.job.upper, 0);
    DeleteEditsTake(s.job.level + 1, s.job.lower, 0);
    hide AddEdits, DeleteEdits;
  }

  lemma EditsTake(s: Step, m: nat)
    requires m < |s.Edits()|
    ensures var j := CutJob(s, m);
            s.Edits()[..m] == AddEdits(j.level + 1, CutAdded(s, m))
                              + (DeleteEdits(j.level, j.upper) + DeleteEdits(j.level + 1, j.lower))
  {
    EditCount(s);
    var a, b, c := AddEdits(s.job.level + 1, s.added), DeleteEdits(s.job.level, s.job.upper),
        DeleteEdits(s.job.level + 1, s.job.lower);
    AddEditsTake(s.job.level + 1, s.added, AddsIn(s, m));
    DeleteEditsTake(s.job.level, s.job.upper, UpsIn(s, m));
    DeleteEditsTake(s.job.level + 1, s.job.lower, LowsIn(s, m));
    TakeThree(a, b, c, SetNextFileNum(s.next + |s.added|), m, AddsIn(s, m), UpsIn(s, m), LowsIn(s, m));
    hide AddEdits, DeleteEdits;
  }

  // ---------------------------------------------------------------- the catalog after the cut

  function CutCatalog(s: Step, c: Catalog, m: nat): Catalog
    requires m <= |s.Edits()|
  {
    ApplyAll(c, s.Edits()[..m])
  }

  lemma CutMembers(s: Step, c: Catalog, m: nat, x: FileMeta)
    requires m < |s.Edits()|
    ensures var d := CutCatalog(s, c, m);
            && (x in d.files <==> AfterCompact(c.files, CutJob(s, m), CutAdded(s, m), x))
            && (DistinctNums(c.files + CollectLevel(s.job.level + 1, CutAdded(s, m))) ==> DistinctNums(d.files))
            && d.nextFileNum == c.nextFileNum && d.lastSeq == c.lastSeq
  {
    hide *;
    EditsTake(s, m);
    ApplyMoves(c, CutJob(s, m), CutAdded(s, m), x);
    CutIs(s, c, m);
  }

  lemma CutIs(s: Step, c: Catalog, m: nat)
    requires m <= |s.Edits()|
    ensures CutCatalog(s, c, m) == ApplyAll(c, s.Edits()[..m]) && CutJob(s, m).level == s.job.level
  {
  }

  // ---------------------------------------------------------------- the tables after the cut

  /** The tables a level holds after the cut. */
  ghost predicate CutStays(s: Step, m: nat, l: nat, t: Table) {
    || (l < |s.levels| && t in s.levels[l] && !(l == s.job.level && t in CutJob(s, m).upper)
        && !(l == s.job.level + 1 && t in CutJob(s, m).lower))
    || (l == s.job.level + 1 && t in CutAdded(s, m))
  }

  lemma CutStaysIs(s: Step, m: nat, l: nat, t: Table)
    ensures CutStays(s, m, l, t) <==>
            || (l < |s.levels| && t in s.levels[l] && !(l == s.job.level && t in CutJob(s, m).upper)
                && !(l == s.job.level + 1 && t in CutJob(s, m).lower))
            || (l == s.job.level + 1 && t in CutAdded(s, m))
  {
  }

  lemma CutParts(s: Step, m: nat)
    ensures CutJob(s, m).level == s.job.level
    ensures forall t :: t in CutJob(s, m).upper ==> t in s.job.upper
    ensures forall t :: t in CutJob(s, m).lower ==> t in s.job.lower
    ensures forall t :: t in CutAdded(s, m) ==> t in s.added
  {
  }

  function CutLevelsOf(s: Step, c: Catalog, m: nat): (v: Levels)
    requires m <= |s.Edits()|
    ensures |v| == |s.levels|
  {
    FromMetas(s.fmt, s.NewFiles(), CutCatalog(s, c, m).files, |s.levels|)
  }

  lemma CutLevelsIs(s: Step, c: Catalog, m: nat)
    requires m <= |s.Edits()|
    ensures CutLevelsOf(s, c, m) == FromMetas(s.fmt, s.NewFiles(), CutCatalog(s, c, m).files, |s.levels|)
  {
  }

  lemma CutNotDeleted(s: Step, m: nat, l: nat, t: Table)
    requires s.Good() && CutStays(s, m, l, t)
    ensures l < |s.levels|
    ensures !DeletedBy(s.job.level, CutJob(s, m).upper, MetaOf(l, t))
    ensures !DeletedBy(s.job.level + 1, CutJob(s, m).lower, MetaOf(l, t))
  {
    hide Step.Good, WellFormed, Sound, JobOf, FreshTables, DisjointLevel, LevelSet, InputSet, OpenTable, WithTables,
        WellFormedTable, CutJob, CutAdded;
    GoodParts(s);
    JobTables(s);
    CutParts(s, m);
    forall u: Table, k: nat | k < |s.levels| && u in s.levels[k] && u.num == t.num
      ensures k == l && u == t && !(t in s.added && l == s.job.level + 1) {
      KeptTable(s, k, u);
      if t in s.added && l == s.job.level + 1 { AddedTable(s, t); }
    }
  }

  lemma CutListed(s: Step, metas: seq<FileMeta>, m: nat, x: FileMeta)
    requires s.Good() && SameFiles(metas, s.levels)
    ensures AfterCompact(metas, CutJob(s, m), CutAdded(s, m), x) <==>
            exists t :: CutStays(s, m, x.level, t) && x == MetaOf(x.level, t)
  {
    hide Step.Good, DistinctNums, CollectLevel, CutJob, CutAdded;
    CutParts(s, m);
    CollectLevelMembers(s.job.level + 1, CutAdded(s, m), x);
    if AfterCompact(metas, CutJob(s, m), CutAdded(s, m), x) {
      if x in metas {
        assert HasMeta(s.levels, x);
        var t :| t in s.levels[x.level] && x == MetaOf(x.level, t);
        assert CutStays(s, m, x.level, t);
      } else {
        var t :| t in CutAdded(s, m) && x == MetaOf(s.job.level + 1, t);
        assert CutStays(s, m, x.level, t);
      }
    }
    if t :| CutStays(s, m, x.level, t) && x == MetaOf(x.level, t) {
      CutNotDeleted(s, m, x.level, t);
      if t in CutAdded(s, m) && x.level == s.job.level + 1 {
      } else {
        assert HasMeta(s.levels, x);
      }
    }
  }

  lemma CutOpens(s: Step, m: nat, l: nat, t: Table)
    requires s.Good() && CutStays(s, m, l, t)
    ensures t.num in s.NewFiles() && OpenTable(s.fmt, s.NewFiles(), MetaOf(l, t)) == t
    ensures WellFormedTable(s.fmt, s.NewFiles(), t)
  {
    hide *;
    CutStaysIs(s, m, l, t);
    CutParts(s, m);
    if t in s.added && l == s.job.level + 1 { AddedTable(s, t); } else { KeptTable(s, l, t); }
  }

  lemma CutDistinct(s: Step, c: Catalog, m: nat)
    requires s.Good() && SameFiles(c.files, s.levels) && m < |s.Edits()|
    ensures DistinctNums(CutCatalog(s, c, m).files)
  {
    hide *;
    DistinctWithAdded(s, c.files);
    CollectTake(s.job.level + 1, s.added, AddsIn(s, m));
    CutAddedIs(s, m);
    DistinctFront(c.files, CollectLevel(s.job.level + 1, s.added), CollectLevel(s.job.level + 1, CutAdded(s, m)));
    CutMembers(s, c, m, FileMeta(0, 0, [], [], 0));
  }

  lemma CutAddedIs(s: Step, m: nat)
    ensures CutAdded(s, m) == s.added[..AddsIn(s, m)]
  {
  }

  lemma {:induction false} CollectTake(level: nat, ts: seq<Table>, i: nat)
    requires i <= |ts|
    ensures CollectLevel(level, ts[..i]) <= CollectLevel(level, ts)
  {
    if i < |ts| {
      var front := ts[..|ts| - 1];
      CollectTake(level, front, i);
      assert front[..i] == ts[..i];
    } else {
      assert ts[..i] == ts;
    }
  }

  lemma DistinctFront(a: seq<FileMeta>, b: seq<FileMeta>, c: seq<FileMeta>)
    requires DistinctNums(a + b) && c <= b
    ensures DistinctNums(a + c)
  {
    assert forall i :: 0 <= i < |a + c| ==> (a + c)[i] == (a + b)[i];
  }

  /** After the cut a level holds exactly the tables that stay, and is in order. */
  lemma CutLevel(s: Step, c: Catalog, m: nat, l: nat)
    requires s.Good() && SameFiles(c.files, s.levels) && m < |s.Edits()| && l < |s.levels|
    ensures WeaklyOrdered(l, CutLevelsOf(s, c, m)[l]) && DistinctTables(CutLevelsOf(s, c, m)[l])
    ensures forall t :: t in CutLevelsOf(s, c, m)[l] <==> CutStays(s, m, l, t)
  {
    hide *;
    var files := CutCatalog(s, c, m).files;
    CutLevelsIs(s, c, m);
    CutDistinct(s, c, m);
    FromMetasLevel(s.fmt, s.NewFiles(), files, |s.levels|, l);
    forall t ensures t in CutLevelsOf(s, c, m)[l] <==> CutStays(s, m, l, t) { CutMember(s, c, m, l, t, files); }
  }

  lemma CutMember(s: Step, c: Catalog, m: nat, l: nat, t: Table, files: seq<FileMeta>)
    requires s.Good() && SameFiles(c.files, s.levels) && m < |s.Edits()| && l < |s.levels|
    requires files == CutCatalog(s, c, m).files
    ensures (exists x :: Listed(s.NewFiles(), files, l, x) && t == OpenTable(s.fmt, s.NewFiles(), x)) <==> CutStays(s, m, l, t)
  {
    hide Step.Good, Step.Edits, Step.NewFiles, CutStays, CutCatalog, CutJob, CutAdded, AfterCompact, OpenTable, SameFiles;
    if x :| Listed(s.NewFiles(), files, l, x) && t == OpenTable(s.fmt, s.NewFiles(), x) {
      CutMembers(s, c, m, x);
      CutListed(s, c.files, m, x);
      var u :| CutStays(s, m, l, u) && x == MetaOf(l, u);
      CutOpens(s, m, l, u);
    }
    if CutStays(s, m, l, t) {
      CutOpens(s, m, l, t);
      CutListed(s, c.files, m, MetaOf(l, t));
      CutMembers(s, c, m, MetaOf(l, t));
      assert Listed(s.NewFiles(), files, l, MetaOf(l, t));
    }
  }

  // ---------------------------------------------------------------- which levels changed

  lemma OldStrict(s: Step, l: nat)
    requires s.Good() && l < |s.levels|
    ensures StrictlyOrdered(l, s.levels[l])
  {
    hide WellFormedTable, UniqueNums, NumsBelow, JobOf, FreshTables;
    OrderedLevelIsStrict(s.fmt, s.files, l, s.levels[l]);
  }

  /** Levels that are not part of the job are as before. */
  lemma CutElsewhere(s: Step, c: Catalog, m: nat, l: nat)
    requires s.Good() && SameFiles(c.files, s.levels) && m < |s.Edits()| && l < |s.levels|
    requires l != s.job.level && l != s.job.level + 1
    ensures CutLevelsOf(s, c, m)[l] == s.levels[l]
  {
    hide *;
    var v := CutLevelsOf(s, c, m)[l];
    CutLevel(s, c, m, l);
    OldStrict(s, l);
    forall t ensures t in v <==> t in s.levels[l] { CutStaysIs(s, m, l, t); }
    SameOrder(l, s.levels[l], v);
  }

  /** A level is determined by which tables of an ordered one it holds. */
  lemma SameOrder(l: nat, was: seq<Table>, v: seq<Table>)
    requires StrictlyOrdered(l, was) && WeaklyOrdered(l, v) && DistinctTables(v)
    requires forall t :: t in v <==> t in was
    ensures v == was
  {
    hide *;
    forall t, u | t in v && u in v && t != u ensures TableLt(l, t, u) || TableLt(l, u, t) { StrictPairs(l, was, t, u); }
    DistinctSorted(l, v);
    OrderedIsCanonical(l, v, was);
  }

  /** Of the upper level the first inputs are gone. */
  lemma CutUpper(s: Step, c: Catalog, m: nat)
    requires s.Good() && SameFiles(c.files, s.levels) && m < |s.Edits()|
    ensures s.job.level < |s.levels| && UpsIn(s, m) <= |s.levels[s.job.level]|
    ensures CutLevelsOf(s, c, m)[s.job.level] == s.levels[s.job.level][UpsIn(s, m)..]
    ensures s.job.upper[..UpsIn(s, m)] == s.levels[s.job.level][..UpsIn(s, m)]
  {
    hide *;
    var l, u, v := s.job.level, UpsIn(s, m), CutLevelsOf(s, c, m);
    GoodParts(s);
    CutLevel(s, c, m, l);
    OldStrict(s, l);
    UpperIs(s);
    CutUpperIs(s, m);
    var was := s.levels[l];
    assert s.job.upper[..u] == was[..u];
    forall t ensures t in v[l] <==> t in was[u..] {
      CutStaysIs(s, m, l, t);
      SplitMember(l, was, u, t);
    }
    StrictTail(l, was, u);
    SameOrder(l, was[u..], v[l]);
  }

  lemma CutUpperIs(s: Step, m: nat)
    ensures CutJob(s, m).upper == s.job.upper[..UpsIn(s, m)] && CutJob(s, m).lower == s.job.lower[..LowsIn(s, m)]
  {
  }

  lemma UpperIs(s: Step)
    requires s.Good()
    ensures s.job.level < |s.levels| && |s.job.upper| <= |s.levels[s.job.level]|
    ensures s.job.upper == s.levels[s.job.level][..|s.job.upper|]
    ensures s.job.upper != []
  {
    hide Sound, FreshTables, DisjointLevel, LevelSet, InputSet, Overlapping;
  }

  lemma SplitMember(l: nat, ts: seq<Table>, u: nat, t: Table)
    requires StrictlyOrdered(l, ts) && u <= |ts|
    ensures t in ts && t !in ts[..u] <==> t in ts[u..]
  {
    assert ts == ts[..u] + ts[u..];
    if t in ts[..u] && t in ts[u..] {
      var i :| 0 <= i < u && ts[..u][i] == t;
      var j :| 0 <= j < |ts| - u && ts[u..][j] == t;
      assert TableLt(l, ts[i], ts[u + j]);
      TableLtOrder(l, t, t, t);
    }
  }

  lemma StrictTail(l: nat, ts: seq<Table>, u: nat)
    requires StrictlyOrdered(l, ts) && u <= |ts|
    ensures StrictlyOrdered(l, ts[u..])
  {
    hide TableLt;
  }
}
