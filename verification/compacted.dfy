/** A compaction keeps the version sound and its sources faithful. */
module CompactedLevels {
  import opened ByteStrings
  import opened Records
  import opened Builder
  import opened ManifestLog
  import opened Versions
  import opened Sources
  import opened Compaction
  import opened Releveling

  /** One compaction: the version it starts from, the job, and the tables it writes. */
  datatype Step = Step(fmt: Format, files: Files, levels: Levels, next: nat, job: Job, added: seq<Table>)
  {
    function Edits(): seq<Edit> { CompactEdits(job, added, next + |added|) }

    function NewFiles(): Files { WithTables(files, added) }

    function NewLevels(): Levels { LevelsAfter(fmt, levels, NewFiles(), Edits()) }

    /** The output tables are sorted runs of input records, disjoint and freshly numbered. */
    ghost predicate Good() {
      && Sound(fmt, files, levels, next) && JobOf(levels, job)
      && FreshTables(fmt, added, next)
      && (forall i :: 0 <= i < |added| ==> Sorted(added[i].recs))
      && DisjointLevel(added)
      && LevelSet(added) <= InputSet(job)
    }

    ghost predicate Removed(l: nat, t: Table) {
      (l == job.level && t in job.upper) || (l == job.level + 1 && t in job.lower)
    }

    /** The tables a level should hold afterwards. */
    ghost predicate Stays(l: nat, t: Table) {
      || (l < |levels| && t in levels[l] && !Removed(l, t))
      || (l == job.level + 1 && t in added)
    }
  }

  lemma GoodParts(s: Step)
    requires s.Good()
    ensures Sound(s.fmt, s.files, s.levels, s.next) && WellFormed(s.fmt, s.files, s.levels) && UniqueNums(s.levels)
    ensures JobOf(s.levels, s.job) && s.job.level + 1 < |s.levels|
    ensures FreshTables(s.fmt, s.added, s.next) && DisjointLevel(s.added) && LevelSet(s.added) <= InputSet(s.job)
  {
  }

  lemma StepParts(s: Step)
    ensures s.Edits() == CompactEdits(s.job, s.added, s.next + |s.added|)
    ensures s.NewLevels()
        == FromMetas(s.fmt, s.NewFiles(), ApplyAll(Catalog(CollectMetas(s.levels), 0, 0), s.Edits()).files, |s.levels|)
    ensures |s.NewLevels()| == |s.levels|
  {
  }

  lemma JobTables(s: Step)
    requires s.Good()
    ensures forall t :: t in s.job.upper ==> t in s.levels[s.job.level]
    ensures forall t :: t in s.job.lower ==> t in s.levels[s.job.level + 1]
  {
    hide Sound, FreshTables, InputSet, Overlapping, LowKey, HighKey;
    forall t | t in s.job.lower ensures t in s.levels[s.job.level + 1] {
      OverlappingMembers(s.levels[s.job.level + 1], LowKey(s.job.upper), HighKey(s.job.upper), t);
    }
  }

  lemma AddedTable(s: Step, t: Table)
    requires s.Good() && t in s.added
    ensures s.next <= t.num < s.next + |s.added|
    ensures WellFormedTable(s.fmt, s.NewFiles(), t)
    ensures t.num in s.NewFiles() && OpenTable(s.fmt, s.NewFiles(), MetaOf(s.job.level + 1, t)) == t
  {
    hide Sound, JobOf, DisjointLevel, LevelSet, InputSet, SizeOf, WithTables, Sorted;
    var i :| 0 <= i < |s.added| && s.added[i] == t;
    WithTablesAt(s.fmt, s.files, s.added, s.next, t.num);
  }

  lemma KeptTable(s: Step, l: nat, t: Table)
    requires s.Good() && l < |s.levels| && t in s.levels[l]
    ensures t.num < s.next
    ensures WellFormedTable(s.fmt, s.NewFiles(), t)
    ensures t.num in s.NewFiles() && OpenTable(s.fmt, s.NewFiles(), MetaOf(l, t)) == t
  {
    hide FreshTables, JobOf, DisjointLevel, LevelSet, InputSet, SizeOf, WithTables, Sorted, UniqueNums, OrderedLevel;
    var i :| 0 <= i < |s.levels[l]| && s.levels[l][i] == t;
    assert WellFormedTable(s.fmt, s.files, s.levels[l][i]);
    WithTablesAt(s.fmt, s.files, s.added, s.next, t.num);
  }

  // ---------------------------------------------------------------- which files are listed

  lemma {:induction false} FreshCollect(fmt: Format, level: nat, ts: seq<Table>, next: nat)
    requires FreshTables(fmt, ts, next)
    ensures DistinctNums(CollectLevel(level, ts))
  {
    hide NewTable;
    CollectLevelDistinct(level, ts);
  }

  lemma DistinctWithAdded(s: Step, metas: seq<FileMeta>)
    requires s.Good() && SameFiles(metas, s.levels)
    ensures DistinctNums(metas + CollectLevel(s.job.level + 1, s.added))
  {
    hide Step.Good, CollectLevel, FreshTables, DistinctNums, OpenTable, WithTables, WellFormedTable, Sound,
        WellFormed, UniqueNums, JobOf, DisjointLevel, LevelSet, InputSet;
    var more := CollectLevel(s.job.level + 1, s.added);
    GoodParts(s);
    FreshCollect(s.fmt, s.job.level + 1, s.added, s.next);
    forall x, y | x in metas && y in more ensures x.num != y.num {
      assert HasMeta(s.levels, x);
      var t :| t in s.levels[x.level] && x == MetaOf(x.level, t);
      KeptTable(s, x.level, t);
      CollectLevelMembers(s.job.level + 1, s.added, y);
      var u :| u in s.added && y == MetaOf(s.job.level + 1, u);
      AddedTable(s, u);
    }
    DistinctAppend(metas, more);
  }

  lemma NotDeleted(s: Step, l: nat, t: Table)
    requires s.Good() && s.Stays(l, t)
    ensures l < |s.levels|
    ensures !DeletedBy(s.job.level, s.job.upper, MetaOf(l, t)) && !DeletedBy(s.job.level + 1, s.job.lower, MetaOf(l, t))
  {
    hide Step.Good, WellFormed, Sound, JobOf, FreshTables, DisjointLevel, LevelSet, InputSet, OpenTable, WithTables,
        WellFormedTable;
    GoodParts(s);
    JobTables(s);
    forall u: Table, k: nat | k < |s.levels| && u in s.levels[k] && u.num == t.num
      ensures k == l && u == t && !(t in s.added && l == s.job.level + 1) {
      KeptTable(s, k, u);
      if t in s.added && l == s.job.level + 1 { AddedTable(s, t); }
    }
  }

  /** A file is listed after the edits exactly if it is a table that stays. */
  lemma ListedStays(s: Step, metas: seq<FileMeta>, m: FileMeta)
    requires s.Good() && SameFiles(metas, s.levels)
    ensures AfterCompact(metas, s.job, s.added, m) <==> exists t :: s.Stays(m.level, t) && m == MetaOf(m.level, t)
  {
    hide Step.Good, DistinctNums, CollectLevel;
    CollectLevelMembers(s.job.level + 1, s.added, m);
    if AfterCompact(metas, s.job, s.added, m) {
      if m in metas {
        assert HasMeta(s.levels, m);
        var t :| t in s.levels[m.level] && m == MetaOf(m.level, t);
        assert s.Stays(m.level, t);
      } else {
        var t :| t in s.added && m == MetaOf(s.job.level + 1, t);
        assert s.Stays(m.level, t);
      }
    }
    if t :| s.Stays(m.level, t) && m == MetaOf(m.level, t) {
      NotDeleted(s, m.level, t);
      if t in s.added && m.level == s.job.level + 1 {
      } else {
        assert HasMeta(s.levels, m);
      }
    }
  }

  /** The rebuilt version holds exactly the tables that stay. */
  lemma NewLevelMembers(s: Step, l: nat)
    requires s.Good() && l < |s.levels|
    ensures |s.NewLevels()| == |s.levels|
    ensures WeaklyOrdered(l, s.NewLevels()[l]) && DistinctTables(s.NewLevels()[l])
    ensures forall t :: t in s.NewLevels()[l] <==> s.Stays(l, t)
  {
    hide *;
    var after := ApplyAll(Catalog(CollectMetas(s.levels), 0, 0), s.Edits()).files;
    StepParts(s);
    AfterDistinct(s);
    FromMetasLevel(s.fmt, s.NewFiles(), after, |s.levels|, l);
    forall t ensures t in s.NewLevels()[l] <==> s.Stays(l, t) { NewLevelMember(s, l, t, after); }
  }

  lemma AfterDistinct(s: Step)
    requires s.Good()
    ensures DistinctNums(ApplyAll(Catalog(CollectMetas(s.levels), 0, 0), s.Edits()).files)
  {
    hide *;
    var c := Catalog(CollectMetas(s.levels), 0, 0);
    GoodParts(s);
    StepParts(s);
    CollectDistinct(s.fmt, s.files, s.levels, s.next);
    DistinctWithAdded(s, c.files);
    ApplyCompact(c, s.job, s.added, s.next + |s.added|, FileMeta(0, 0, [], [], 0));
  }

  lemma AfterMembers(s: Step, c: Catalog, m: FileMeta)
    requires s.Good() && SameFiles(c.files, s.levels)
    ensures m in ApplyAll(c, s.Edits()).files <==> exists t :: s.Stays(m.level, t) && m == MetaOf(m.level, t)
  {
    hide *;
    StepParts(s);
    ApplyCompact(c, s.job, s.added, s.next + |s.added|, m);
    ListedStays(s, c.files, m);
  }

  lemma NewLevelMember(s: Step, l: nat, t: Table, after: seq<FileMeta>)
    requires s.Good() && l < |s.levels|
    requires after == ApplyAll(Catalog(CollectMetas(s.levels), 0, 0), s.Edits()).files
    ensures (exists m :: Listed(s.NewFiles(), after, l, m) && t == OpenTable(s.fmt, s.NewFiles(), m)) <==> s.Stays(l, t)
  {
    hide Step.Good, Step.Stays, Step.Edits, Step.NewFiles, Step.NewLevels, ApplyAll, CollectMetas, OpenTable, SameFiles;
    hide WellFormedTable, Sound, WellFormed, UniqueNums, JobOf, FreshTables, DisjointLevel, LevelSet, InputSet,
        DistinctNums;
    var c := Catalog(CollectMetas(s.levels), 0, 0);
    GoodParts(s);
    CollectDistinct(s.fmt, s.files, s.levels, s.next);
    if m :| Listed(s.NewFiles(), after, l, m) && t == OpenTable(s.fmt, s.NewFiles(), m) {
      AfterMembers(s, c, m);
      var u :| s.Stays(l, u) && m == MetaOf(l, u);
      StaysOpens(s, l, u);
    }
    if s.Stays(l, t) {
      StaysOpens(s, l, t);
      AfterMembers(s, c, MetaOf(l, t));
      assert Listed(s.NewFiles(), after, l, MetaOf(l, t));
    }
  }

  lemma StaysOpens(s: Step, l: nat, t: Table)
    requires s.Good() && s.Stays(l, t)
    ensures t.num in s.NewFiles() && OpenTable(s.fmt, s.NewFiles(), MetaOf(l, t)) == t
    ensures WellFormedTable(s.fmt, s.NewFiles(), t) && t.num < s.next + |s.added|
  {
    hide Step.Good, WithTables, OpenTable;
    if t in s.added && l == s.job.level + 1 { AddedTable(s, t); } else { KeptTable(s, l, t); }
  }

  // ---------------------------------------------------------------- the new version is sound

  lemma StaysDisjoint(s: Step, l: nat, t: Table, u: Table)
    requires s.Good() && 0 < l < |s.levels| && s.Stays(l, t) && s.Stays(l, u) && t != u
    ensures RangeBelow(t, u) || RangeBelow(u, t)
  {
    hide FreshTables, InputSet, JobOf, LevelSet, WellFormed, DisjointLevel;
    LevelDisjoint(s.fmt, s.files, s.levels, l);
    if t in s.levels[l] && !s.Removed(l, t) {
      if u in s.levels[l] && !s.Removed(l, u) {
        DisjointPair(s.levels[l], t, u);
      } else {
        OldNewDisjoint(s, t, u);
      }
    } else if u in s.levels[l] && !s.Removed(l, u) {
      OldNewDisjoint(s, u, t);
    } else {
      DisjointPair(s.added, t, u);
    }
  }

  lemma OldNewDisjoint(s: Step, t: Table, u: Table)
    requires s.Good() && t in s.levels[s.job.level + 1] && t !in s.job.lower && u in s.added
    ensures RangeBelow(t, u) || RangeBelow(u, t)
  {
    hide Step.Good, FreshTables, InputSet, JobOf, LevelSet, WellFormed, DisjointLevel, Sorted, Lt, UniqueNums,
        OpenTable, WithTables, SizeOf;
    GoodParts(s);
    AddedTable(s, u);
    NonInputClear(s.fmt, s.files, s.levels, s.job, t);
    InLevelSet(s.added, u.recs[0]);
    InLevelSet(s.added, u.recs[|u.recs| - 1]);
  }

  lemma NewLevelOrdered(s: Step, l: nat)
    requires s.Good() && l < |s.levels|
    ensures |s.NewLevels()| == |s.levels| && OrderedLevel(l, s.NewLevels()[l])
  {
    NewLevelMembers(s, l);
    var ts := s.NewLevels()[l];
    hide Step.Good, Step.NewLevels, Step.Stays;
    if l > 0 {
      hide Lt;
      forall i, j | 0 <= i < j < |ts| ensures RangeBelow(ts[i], ts[j]) {
        assert ts[i] in ts && ts[j] in ts && ts[i] != ts[j];
        StaysDisjoint(s, l, ts[i], ts[j]);
        StaysOpens(s, l, ts[j]);
        if RangeBelow(ts[j], ts[i]) { SmallestFirst(s.fmt, s.NewFiles(), ts[j], ts[i]); }
      }
    }
  }

  /** The rebuilt version is sound again: every level in order, disjoint below L0. */
  lemma NewLevelsSound(s: Step)
    requires s.Good()
    ensures |s.NewLevels()| == |s.levels|
    ensures Sound(s.fmt, s.NewFiles(), s.NewLevels(), s.next + |s.added|)
  {
    hide *;
    var v := s.NewLevels();
    StepParts(s);
    forall l: nat, t | l < |v| ensures t in v[l] <==> s.Stays(l, t) { NewLevelMembers(s, l); }
    forall l: nat | l < |v| ensures OrderedLevel(l, v[l]) { NewLevelOrdered(s, l); }
    forall l: nat, t: Table | l < |v| && t in v[l]
      ensures WellFormedTable(s.fmt, s.NewFiles(), t) && t.num < s.next + |s.added| { StaysOpens(s, l, t); }
    forall l: nat, k: nat, t: Table, u: Table | l < |v| && k < |v| && t in v[l] && u in v[k] && t.num == u.num
      ensures l == k && t == u { StaysUnique(s, l, t, k, u); }
    SoundIs(s.fmt, s.NewFiles(), v, s.next + |s.added|);
  }

  lemma SoundIs(fmt: Format, files: Files, v: Levels, next: nat)
    requires forall l: nat :: l < |v| ==> OrderedLevel(l, v[l])
    requires forall l: nat, t: Table :: l < |v| && t in v[l] ==> WellFormedTable(fmt, files, t) && t.num < next
    requires forall l: nat, k: nat, t: Table, u: Table ::
               l < |v| && k < |v| && t in v[l] && u in v[k] && t.num == u.num ==> l == k && t == u
    ensures Sound(fmt, files, v, next)
  {
    hide WellFormedTable, OrderedLevel;
    forall l, i | 0 <= l < |v| && 0 <= i < |v[l]|
      ensures WellFormedTable(fmt, files, v[l][i]) { assert v[l][i] in v[l]; }
  }

  lemma StaysUnique(s: Step, l: nat, t: Table, k: nat, u: Table)
    requires s.Good() && s.Stays(l, t) && s.Stays(k, u) && t.num == u.num
    ensures l == k && t == u
  {
    if t in s.added && l == s.job.level + 1 { AddedTable(s, t); } else { KeptTable(s, l, t); }
    if u in s.added && k == s.job.level + 1 { AddedTable(s, u); } else { KeptTable(s, k, u); }
    hide JobOf, WellFormed, InputSet, LevelSet, NewTable, DisjointLevel;
  }

  /** Whatever catalog listed the old version's files lists, after the edits, the new one's. */
  lemma CatalogFollows(s: Step, c: Catalog)
    requires s.Good() && SameFiles(c.files, s.levels)
    ensures SameFiles(ApplyAll(c, s.Edits()).files, s.NewLevels())
    ensures ApplyAll(c, s.Edits()).nextFileNum == s.next + |s.added| && ApplyAll(c, s.Edits()).lastSeq == c.lastSeq
  {
    hide *;
    var d, v := ApplyAll(c, s.Edits()), s.NewLevels();
    StepParts(s);
    DistinctWithAdded(s, c.files);
    ApplyCompact(c, s.job, s.added, s.next + |s.added|, FileMeta(0, 0, [], [], 0));
    forall m ensures m in d.files <==> HasMeta(v, m) { CatalogMember(s, c, m); }
    SameFilesIs(d.files, v);
  }

  lemma SameFilesIs(metas: seq<FileMeta>, levels: Levels)
    requires DistinctNums(metas) && forall m :: m in metas <==> HasMeta(levels, m)
    ensures SameFiles(metas, levels)
  {
  }

  lemma CatalogMember(s: Step, c: Catalog, m: FileMeta)
    requires s.Good() && SameFiles(c.files, s.levels)
    ensures m in ApplyAll(c, s.Edits()).files <==> HasMeta(s.NewLevels(), m)
  {
    hide *;
    var v := s.NewLevels();
    StepParts(s);
    AfterMembers(s, c, m);
    HasMetaIs(v, m);
    if t :| s.Stays(m.level, t) && m == MetaOf(m.level, t) {
      LevelOfStay(s, m.level, t);
      NewLevelMembers(s, m.level);
      assert t in v[m.level];
    }
    if HasMeta(v, m) {
      var t :| t in v[m.level] && m == MetaOf(m.level, t);
      NewLevelMembers(s, m.level);
      assert s.Stays(m.level, t);
    }
  }

  lemma HasMetaIs(levels: Levels, m: FileMeta)
    ensures HasMeta(levels, m) <==> m.level < |levels| && exists t :: t in levels[m.level] && m == MetaOf(m.level, t)
  {
  }

  lemma LevelOfStay(s: Step, l: nat, t: Table)
    requires s.Good() && s.Stays(l, t)
    ensures l < |s.levels|
  {
  }
}
