/** What a point read returns when the edits of a compaction were logged only in part
    (src/db.rs 417-447, src/version.rs 64-91). */
module CutReads {
  import opened ByteStrings
  import opened Keys
  import opened Records
  import opened Builder
  import opened ManifestLog
  import opened Versions
  import opened Sources
  import opened Histories
  import opened CompactionFaith
  import opened Compaction
  import opened Releveling
  import opened CompactedLevels
  import opened LevelFaith
  import opened Probes
  import opened CutLevels
  import CompactionSteps
  import Scans

  /** A compaction of levels whose sources are in order, read at or past their last number. */
  ghost predicate Ready(s: Step, watermark: nat, maxSeq: nat) {
    && s.Good() && Writes(s, watermark)
    && Ordered(TableSources(s.levels)) && OneWritePerSeq(Union(TableSources(s.levels)))
    && forall r :: r in Union(TableSources(s.levels)) ==> r.ik.seqno <= maxSeq
  }

  lemma ReadyIs(s: Step, watermark: nat, maxSeq: nat)
    ensures Ready(s, watermark, maxSeq) <==>
            && s.Good() && Writes(s, watermark)
            && Ordered(TableSources(s.levels)) && OneWritePerSeq(Union(TableSources(s.levels)))
            && forall r :: r in Union(TableSources(s.levels)) ==> r.ik.seqno <= maxSeq
  {
  }

  // ---------------------------------------------------------------- records of the levels

  lemma InUnion(s: Step, watermark: nat, maxSeq: nat, l: nat, r: Record)
    requires Ready(s, watermark, maxSeq) && l < |s.levels| && r in LevelSet(s.levels[l])
    ensures r in Union(TableSources(s.levels)) && r.ik.seqno <= maxSeq
  {
    hide *;
    ReadyIs(s, watermark, maxSeq);
    Scans.TableSourceMembers(s.levels, r);
  }

  lemma VisibleIs(r: Record, k: bytes, maxSeq: nat)
    ensures Visible(r, k, maxSeq) <==> r.ik.userKey == k && r.ik.seqno <= maxSeq
  {
  }

  lemma SameNumber(s: Step, watermark: nat, maxSeq: nat, q: Record, r: Record)
    requires Ready(s, watermark, maxSeq) && q in Union(TableSources(s.levels)) && r in Union(TableSources(s.levels))
    requires q.ik.seqno == r.ik.seqno
    ensures q == r
  {
    hide Ordered, TableSources, Union, Writes, Step.Good;
  }

  lemma InputInLevels(s: Step, r: Record)
    requires s.Good() && r in InputSet(s.job)
    ensures s.job.level + 1 < |s.levels|
    ensures r in LevelSet(s.job.upper) ==> r in LevelSet(s.levels[s.job.level])
    ensures r in LevelSet(s.job.lower) ==> r in LevelSet(s.levels[s.job.level + 1])
    ensures r in LevelSet(s.job.upper) || r in LevelSet(s.job.lower)
  {
    hide *;
    GoodParts(s);
    JobTables(s);
    CompactionSteps.InputSetIs(s.job);
    InLevelSet(s.job.upper, r);
    InLevelSet(s.job.lower, r);
    InLevelSet(s.levels[s.job.level], r);
    InLevelSet(s.levels[s.job.level + 1], r);
  }

  lemma InputInUnion(s: Step, watermark: nat, maxSeq: nat, r: Record)
    requires Ready(s, watermark, maxSeq) && r in InputSet(s.job)
    ensures r in Union(TableSources(s.levels)) && r.ik.seqno <= maxSeq
  {
    hide *;
    ReadyIs(s, watermark, maxSeq);
    InputInLevels(s, r);
    InUnion(s, watermark, maxSeq, if r in LevelSet(s.job.upper) then s.job.level else s.job.level + 1, r);
  }

  lemma LevelIsTrue(s: Step, watermark: nat, maxSeq: nat, l: nat)
    requires Ready(s, watermark, maxSeq) && l < |s.levels|
    ensures LevelTrue(s.fmt, s.files, l, s.levels[l])
  {
    hide *;
    ReadyIs(s, watermark, maxSeq);
    GoodParts(s);
    forall r | r in LevelSet(s.levels[l]) ensures r in Union(TableSources(s.levels)) { InUnion(s, watermark, maxSeq, l, r); }
    SubsetUnique(LevelSet(s.levels[l]), Union(TableSources(s.levels)));
    TrueIs(s.fmt, s.files, s.levels, l);
  }

  lemma TrueIs(fmt: Format, files: Files, levels: Levels, l: nat)
    requires WellFormed(fmt, files, levels) && l < |levels| && OneWritePerSeq(LevelSet(levels[l]))
    ensures LevelTrue(fmt, files, l, levels[l])
  {
    hide WellFormedTable, OneWritePerSeq, OrderedLevel;
  }

  // ---------------------------------------------------------------- what lies over what

  /** A level below L0 shadows the levels under it. */
  lemma DeepShadows(levels: Levels, i: nat, j: nat)
    requires Ordered(TableSources(levels)) && 0 < i < j < |levels|
    ensures Shadows(LevelSet(levels[i]), LevelSet(levels[j]))
  {
    var deep, n := levels[1..], |L0Sources(levels[0])|;
    DeepAt(deep, i - 1);
    DeepAt(deep, j - 1);
    DeepCount(deep);
    hide Shadows, LevelSet, L0Sources, DeepSources;
    assert TableSources(levels)[n + i - 1] == DeepSources(deep)[i - 1];
    assert TableSources(levels)[n + j - 1] == DeepSources(deep)[j - 1];
  }

  lemma {:induction false} DeepCount(levels: Levels)
    ensures |DeepSources(levels)| == |levels|
  {
    if levels != [] { DeepCount(levels[1..]); }
  }

  /** So does each table of L0. */
  lemma TopShadows(levels: Levels, t: Table, j: nat)
    requires Ordered(TableSources(levels)) && 0 < j < |levels| && t in levels[0]
    ensures Shadows(Contents(t.recs), LevelSet(levels[j]))
  {
    var ts, deep, n := levels[0], levels[1..], |L0Sources(levels[0])|;
    var i :| 0 <= i < |ts| && ts[i] == t;
    L0At(ts, |ts| - 1 - i);
    DeepAt(deep, j - 1);
    DeepCount(deep);
    hide Shadows, LevelSet, L0Sources, DeepSources;
    assert TableSources(levels)[|ts| - 1 - i] == L0Sources(ts)[|ts| - 1 - i];
    assert TableSources(levels)[n + j - 1] == DeepSources(deep)[j - 1];
  }

  lemma ShadowsIs(x: Source, y: Source, q: Record, r: Record)
    requires Shadows(x, y) && q in x && r in y && q.ik.userKey == r.ik.userKey && q.ik.seqno <= r.ik.seqno
    ensures r in x
  {
  }

  lemma NewestIn(I: Source, v: Record, q: Record)
    requires NewestOfKey(I, v)
    ensures v in I && (q in I && q.ik.userKey == v.ik.userKey ==> q.ik.seqno <= v.ik.seqno)
  {
  }

  lemma NewestFrom(I: Source, v: Record)
    requires v in I && forall q :: q in I && q.ik.userKey == v.ik.userKey ==> q.ik.seqno <= v.ik.seqno
    ensures NewestOfKey(I, v)
  {
  }

  /** The newest version among the upper inputs is as new as any version in the levels below. */
  lemma UpperOver(s: Step, watermark: nat, maxSeq: nat, v: Record, j: nat, q: Record)
    requires Ready(s, watermark, maxSeq) && NewestOfKey(LevelSet(s.job.upper), v)
    requires s.job.level < j < |s.levels| && q in LevelSet(s.levels[j]) && q.ik.userKey == v.ik.userKey
    ensures q.ik.seqno <= v.ik.seqno
  {
    hide *;
    var l := s.job.level;
    ReadyIs(s, watermark, maxSeq);
    GoodParts(s);
    JobTables(s);
    NewestIn(LevelSet(s.job.upper), v, q);
    InLevelSet(s.job.upper, v);
    var t :| t in s.job.upper && v in t.recs;
    if v.ik.seqno < q.ik.seqno {
      if l == 0 {
        TopShadows(s.levels, t, j);
        ContentsHas(t.recs, v);
        ContentsHas(t.recs, q);
        ShadowsIs(Contents(t.recs), LevelSet(s.levels[j]), v, q);
      } else {
        DeepShadows(s.levels, l, j);
        InLevelSet(s.levels[l], v);
        ShadowsIs(LevelSet(s.levels[l]), LevelSet(s.levels[j]), v, q);
        InLevelSet(s.levels[l], q);
        var u :| u in s.levels[l] && q in u.recs;
        if u != t { OtherTableOtherKey(s.fmt, s.files, s.levels, l, t, u, v, q); }
      }
      InLevelSet(s.job.upper, q);
      NewestIn(LevelSet(s.job.upper), v, q);
    }
  }

  /** So it is the newest among all inputs. */
  lemma UpperNewest(s: Step, watermark: nat, maxSeq: nat, v: Record)
    requires Ready(s, watermark, maxSeq) && NewestOfKey(LevelSet(s.job.upper), v)
    ensures NewestOfKey(InputSet(s.job), v)
  {
    hide *;
    ReadyIs(s, watermark, maxSeq);
    CompactionSteps.InputSetIs(s.job);
    NewestIn(LevelSet(s.job.upper), v, v);
    forall q | q in InputSet(s.job) && q.ik.userKey == v.ik.userKey ensures q.ik.seqno <= v.ik.seqno {
      InputInLevels(s, q);
      if q in LevelSet(s.job.upper) {
        NewestIn(LevelSet(s.job.upper), v, q);
      } else {
        UpperOver(s, watermark, maxSeq, v, s.job.level + 1, q);
      }
    }
    NewestFrom(InputSet(s.job), v);
  }

  // ---------------------------------------------------------------- the output tables

  /** The table of a version spans its key. */
  lemma HolderSpans(fmt: Format, files: Files, t: Table, r: Record)
    requires WellFormedTable(fmt, files, t) && r in t.recs
    ensures Spans(t, r.ik.userKey)
  {
    SpansKey(fmt, files, t, r);
  }

  lemma OneAdded(s: Step, a: Table, b: Table, k: bytes)
    requires s.Good() && a in s.added && b in s.added && Spans(a, k) && Spans(b, k)
    ensures a == b
  {
    hide *;
    GoodParts(s);
    if a != b {
      DisjointPair(s.added, a, b);
      if RangeBelow(a, b) { OneSpans(a, b, k); } else { OneSpans(b, a, k); }
    }
  }

  lemma SurvivesIs(s: Step, watermark: nat, v: Record)
    requires Writes(s, watermark) && v in InputSet(s.job)
    ensures || (exists r :: r in LevelSet(s.added) && r.ik.userKey == v.ik.userKey)
            || (exists n :: NewestOfKey(InputSet(s.job), n) && n.ik.userKey == v.ik.userKey
                  && Droppable(n, s.job.level + 2 >= |s.levels|, watermark))
    ensures forall r :: r in LevelSet(s.added) ==> NewestOfKey(InputSet(s.job), r)
  {
    hide NewestOfKey, LevelSet, InputSet, Droppable;
    assert Survives(InputSet(s.job), LevelSet(s.added), s.job.level + 2 >= |s.levels|, watermark, v);
  }

  lemma DroppableIs(n: Record, lastLevel: bool, watermark: nat)
    ensures Droppable(n, lastLevel, watermark) ==> n.ik.kind == Delete && lastLevel
  {
  }

  lemma SameNewest(s: Step, watermark: nat, maxSeq: nat, v: Record, n: Record)
    requires Ready(s, watermark, maxSeq) && NewestOfKey(InputSet(s.job), v) && NewestOfKey(InputSet(s.job), n)
    requires v.ik.userKey == n.ik.userKey
    ensures v == n
  {
    hide *;
    NewestIn(InputSet(s.job), v, n);
    NewestIn(InputSet(s.job), n, v);
    InputInUnion(s, watermark, maxSeq, v);
    InputInUnion(s, watermark, maxSeq, n);
    SameNumber(s, watermark, maxSeq, v, n);
  }

  /** A key whose newest input version is `v`: that version is in the output, or it was a tombstone
      and nothing lies below the output. */
  lemma Written(s: Step, watermark: nat, maxSeq: nat, v: Record)
    requires Ready(s, watermark, maxSeq) && NewestOfKey(InputSet(s.job), v)
    ensures v in LevelSet(s.added) || (v.ik.kind == Delete && s.job.level + 2 >= |s.levels|)
    ensures forall r :: r in LevelSet(s.added) && r.ik.userKey == v.ik.userKey ==> r == v
  {
    hide *;
    ReadyIs(s, watermark, maxSeq);
    NewestIn(InputSet(s.job), v, v);
    SurvivesIs(s, watermark, v);
    forall r | r in LevelSet(s.added) && r.ik.userKey == v.ik.userKey ensures r == v {
      SameNewest(s, watermark, maxSeq, v, r);
    }
    var last := s.job.level + 2 >= |s.levels|;
    if n :| NewestOfKey(InputSet(s.job), n) && n.ik.userKey == v.ik.userKey && Droppable(n, last, watermark) {
      SameNewest(s, watermark, maxSeq, v, n);
      DroppableIs(n, last, watermark);
    }
  }

  /** What an output table that spans the key answers. */
  lemma AddedReads(s: Step, watermark: nat, maxSeq: nat, v: Record, a: Table)
    requires Ready(s, watermark, maxSeq) && NewestOfKey(InputSet(s.job), v)
    requires a in s.added && Spans(a, v.ik.userKey)
    ensures var k := v.ik.userKey;
            || Newest(Contents(a.recs), k, maxSeq) == Some(v)
            || (Newest(Contents(a.recs), k, maxSeq) == None && v.ik.kind == Delete && s.job.level + 2 >= |s.levels|)
  {
    hide *;
    var k := v.ik.userKey;
    ReadyIs(s, watermark, maxSeq);
    Written(s, watermark, maxSeq, v);
    NewestIn(InputSet(s.job), v, v);
    InputInUnion(s, watermark, maxSeq, v);
    forall r | r in Contents(a.recs) ensures r in LevelSet(s.added) { ContentsHas(a.recs, r); InLevelSet(s.added, r); }
    if v in LevelSet(s.added) {
      InLevelSet(s.added, v);
      var b :| b in s.added && v in b.recs;
      AddedTable(s, b);
      HolderSpans(s.fmt, s.NewFiles(), b, v);
      OneAdded(s, a, b, k);
      ContentsHas(a.recs, v);
      OnlyVersion(Contents(a.recs), v, maxSeq);
    } else {
      forall r | r in Contents(a.recs) ensures !Visible(r, k, maxSeq) { VisibleIs(r, k, maxSeq); }
      NewestNone(Contents(a.recs), k, maxSeq);
    }
  }

  lemma OnlyVersion(S: Source, v: Record, maxSeq: nat)
    requires v in S && v.ik.seqno <= maxSeq && forall r :: r in S && r.ik.userKey == v.ik.userKey ==> r == v
    ensures Newest(S, v.ik.userKey, maxSeq) == Some(v)
  {
    assert Visible(v, v.ik.userKey, maxSeq);
  }

  /** If no output table spans the key, its newest input version was a tombstone. */
  lemma NotSpanned(s: Step, watermark: nat, maxSeq: nat, v: Record)
    requires Ready(s, watermark, maxSeq) && NewestOfKey(InputSet(s.job), v)
    requires forall a :: a in s.added ==> !Spans(a, v.ik.userKey)
    ensures v.ik.kind == Delete && s.job.level + 2 >= |s.levels|
  {
    hide *;
    ReadyIs(s, watermark, maxSeq);
    Written(s, watermark, maxSeq, v);
    InLevelSet(s.added, v);
    if b :| b in s.added && v in b.recs {
      AddedTable(s, b);
      HolderSpans(s.fmt, s.NewFiles(), b, v);
    }
  }

  // ---------------------------------------------------------------- the level below the job

  /** The tables of the lower level that span a key: a table that is no input is the only one. */
  lemma StayingAlone(s: Step, c: Catalog, m: nat, t: Table, k: bytes)
    requires s.Good() && SameFiles(c.files, s.levels) && m < |s.Edits()|
    requires t in s.levels[s.job.level + 1] && t !in s.job.lower && Spans(t, k)
    ensures s.job.level + 1 < |s.levels|
    ensures FindInLevel(CutLevelsOf(s, c, m)[s.job.level + 1], k) == Some(t)
    ensures FindInLevel(s.levels[s.job.level + 1], k) == Some(t)
    ensures forall r :: r in InputSet(s.job) ==> r.ik.userKey != k
  {
    hide *;
    var l := s.job.level + 1;
    GoodParts(s);
    CutLevel(s, c, m, l);
    CutParts(s, m);
    CutStaysIs(s, m, l, t);
    forall u | (u in s.levels[l] || u in s.added) && Spans(u, k) ensures u == t { AloneThere(s, t, u, k); }
    forall u | u in CutLevelsOf(s, c, m)[l] && Spans(u, k) ensures u == t { CutStaysIs(s, m, l, u); }
    OnlySpans(CutLevelsOf(s, c, m)[l], k, t);
    OnlySpans(s.levels[l], k, t);
    forall r | r in InputSet(s.job) ensures r.ik.userKey != k { NotInput(s, t, r); }
  }

  lemma AloneThere(s: Step, t: Table, u: Table, k: bytes)
    requires s.Good() && t in s.levels[s.job.level + 1] && t !in s.job.lower && Spans(t, k)
    requires (u in s.levels[s.job.level + 1] || u in s.added) && Spans(u, k)
    ensures u == t
  {
    hide *;
    GoodParts(s);
    if u != t {
      if u in s.levels[s.job.level + 1] {
        LevelDisjoint(s.fmt, s.files, s.levels, s.job.level + 1);
        DisjointPair(s.levels[s.job.level + 1], t, u);
      } else {
        OldNewDisjoint(s, t, u);
      }
      if RangeBelow(t, u) { OneSpans(t, u, k); } else { OneSpans(u, t, k); }
    }
  }

  lemma NotInput(s: Step, t: Table, r: Record)
    requires s.Good() && t in s.levels[s.job.level + 1] && t !in s.job.lower && r in InputSet(s.job)
    ensures !Spans(t, r.ik.userKey)
  {
    hide *;
    GoodParts(s);
    NonInputClear(s.fmt, s.files, s.levels, s.job, t);
    ClearCases(t, InputSet(s.job), r);
    SpansIs(t, r.ik.userKey);
    LeqAnti(t.smallest, r.ik.userKey);
    LeqAnti(r.ik.userKey, t.largest);
  }

  lemma SpansIs(t: Table, k: bytes)
    ensures Spans(t, k) <==> Leq(t.smallest, k) && Leq(k, t.largest)
  {
  }

  /** In a level of disjoint ranges one table spans a key. */
  lemma OneThere(s: Step, t: Table, u: Table, k: bytes)
    requires s.Good() && t in s.levels[s.job.level + 1] && u in s.levels[s.job.level + 1] && Spans(t, k) && Spans(u, k)
    ensures u == t
  {
    hide *;
    GoodParts(s);
    if u != t {
      LevelDisjoint(s.fmt, s.files, s.levels, s.job.level + 1);
      DisjointPair(s.levels[s.job.level + 1], t, u);
      if RangeBelow(t, u) { OneSpans(t, u, k); } else { OneSpans(u, t, k); }
    }
  }

  /** What can be found in the lower level after the cut. */
  lemma FoundAfter(s: Step, c: Catalog, m: nat, k: bytes)
    requires s.Good() && SameFiles(c.files, s.levels) && m < |s.Edits()| && s.job.level + 1 < |s.levels|
    ensures var l, f := s.job.level + 1, FindInLevel(CutLevelsOf(s, c, m)[s.job.level + 1], k);
            && (f.Some? ==> Spans(f.value, k) && (f.value in s.levels[l] || f.value in s.added))
            && (f.None? ==> (forall a :: a in CutAdded(s, m) ==> !Spans(a, k))
                            && forall t :: t in s.levels[l] && t !in CutJob(s, m).lower ==> !Spans(t, k))
  {
    hide *;
    var l := s.job.level + 1;
    var v := CutLevelsOf(s, c, m)[l];
    CutLevel(s, c, m, l);
    CutParts(s, m);
    FoundSpans(v, k);
    forall t ensures t in v <==> CutStays(s, m, l, t) {}
    forall t ensures CutStays(s, m, l, t) <==>
        (t in s.levels[l] && t !in CutJob(s, m).lower) || t in CutAdded(s, m) { CutStaysIs(s, m, l, t); }
  }

  /** Once anything was deleted all outputs are listed. */
  lemma AllAdded(s: Step, m: nat)
    ensures CutJob(s, m).lower != [] || CutJob(s, m).upper != [] ==> CutAdded(s, m) == s.added
  {
    assert s.added[..|s.added|] == s.added;
  }

  lemma LastLevelSilent(s: Step, v: Levels, k: bytes, maxSeq: nat)
    requires s.job.level + 1 < |s.levels| == |v| && s.job.level + 2 >= |s.levels|
    ensures ReadFrom(s.fmt, v, s.job.level + 2, k, maxSeq) == None
  {
    hide *;
    ReadEnd(s.fmt, v, k, maxSeq);
  }

  lemma DeleteIsNone(v: Record)
    ensures v.ik.kind == Delete ==> ValueOf(Some(v)) == ValueOf(None)
  {
  }

  /** Where the newest input version of the key is `v` and no lower input is found, the level below
      and those under it answer as `v`. */
  lemma NewPartReads(s: Step, c: Catalog, watermark: nat, m: nat, maxSeq: nat, v: Record)
    requires Ready(s, watermark, maxSeq) && SameFiles(c.files, s.levels) && m < |s.Edits()|
    requires NewestOfKey(InputSet(s.job), v) && s.job.level + 1 < |s.levels|
    requires var f := FindInLevel(CutLevelsOf(s, c, m)[s.job.level + 1], v.ik.userKey);
             if f.Some? then f.value !in s.job.lower else CutAdded(s, m) == s.added
    ensures ValueOf(ReadFrom(s.fmt, CutLevelsOf(s, c, m), s.job.level + 1, v.ik.userKey, maxSeq)) == ValueOf(Some(v))
  {
    hide *;
    var l, k, lv := s.job.level + 1, v.ik.userKey, CutLevelsOf(s, c, m);
    ReadyIs(s, watermark, maxSeq);
    FoundAfter(s, c, m, k);
    NewestIn(InputSet(s.job), v, v);
    ReadStep(s.fmt, lv, l, k, maxSeq);
    ReadFound(s.fmt, l, lv[l], k, maxSeq);
    DeleteIsNone(v);
    var f := FindInLevel(lv[l], k);
    if f.Some? {
      if f.value !in s.added { StayingAlone(s, c, m, f.value, k); }
      AddedReads(s, watermark, maxSeq, v, f.value);
    } else {
      NotSpanned(s, watermark, maxSeq, v);
    }
    if s.job.level + 2 >= |s.levels| { LastLevelSilent(s, lv, k, maxSeq); }
  }

  // ---------------------------------------------------------------- keys of lower inputs

  lemma BelowSame(s: Step, c: Catalog, m: nat, k: bytes, maxSeq: nat)
    requires s.Good() && SameFiles(c.files, s.levels) && m < |s.Edits()| && s.job.level + 1 < |s.levels|
    ensures ReadFrom(s.fmt, CutLevelsOf(s, c, m), s.job.level + 2, k, maxSeq)
         == ReadFrom(s.fmt, s.levels, s.job.level + 2, k, maxSeq)
  {
    hide *;
    var v := CutLevelsOf(s, c, m);
    forall i: nat | s.job.level + 2 <= i < |s.levels| ensures v[i] == s.levels[i] { CutElsewhere(s, c, m, i); }
    SameBelow(s.fmt, v, s.levels, s.job.level + 2, k, maxSeq);
  }

  lemma NoVersionIn(S: Source, k: bytes, maxSeq: nat)
    requires forall r :: r in S ==> r.ik.userKey != k
    ensures Newest(S, k, maxSeq) == None
  {
    forall r | r in S ensures !Visible(r, k, maxSeq) { VisibleIs(r, k, maxSeq); }
    NewestNone(S, k, maxSeq);
  }

  /** A key no input has is read as before. */
  lemma NoInputReads(s: Step, c: Catalog, watermark: nat, m: nat, k: bytes, maxSeq: nat)
    requires Ready(s, watermark, maxSeq) && SameFiles(c.files, s.levels) && m < |s.Edits()|
    requires s.job.level + 1 < |s.levels| && forall r :: r in InputSet(s.job) ==> r.ik.userKey != k
    ensures ReadFrom(s.fmt, CutLevelsOf(s, c, m), s.job.level + 1, k, maxSeq)
         == ReadFrom(s.fmt, s.levels, s.job.level + 1, k, maxSeq)
  {
    hide *;
    var l, v := s.job.level + 1, CutLevelsOf(s, c, m);
    ReadyIs(s, watermark, maxSeq);
    BelowSame(s, c, m, k, maxSeq);
    ReadStep(s.fmt, v, l, k, maxSeq);
    ReadStep(s.fmt, s.levels, l, k, maxSeq);
    ReadFound(s.fmt, l, v[l], k, maxSeq);
    ReadFound(s.fmt, l, s.levels[l], k, maxSeq);
    FoundAfter(s, c, m, k);
    FoundSpans(s.levels[l], k);
    var f, g := FindInLevel(v[l], k), FindInLevel(s.levels[l], k);
    if f.Some? && f.value !in s.job.lower && f.value in s.levels[l] {
      StayingAlone(s, c, m, f.value, k);
    } else if g.Some? && g.value !in s.job.lower {
      StayingAlone(s, c, m, g.value, k);
    } else {
      if f.Some? { InputSilent(s, f.value, k, maxSeq); }
      if g.Some? { InputSilent(s, g.value, k, maxSeq); }
    }
  }

  lemma InputSilent(s: Step, t: Table, k: bytes, maxSeq: nat)
    requires s.Good() && (t in s.added || t in s.job.lower) && forall r :: r in InputSet(s.job) ==> r.ik.userKey != k
    ensures Newest(Contents(t.recs), k, maxSeq) == None
  {
    hide *;
    GoodParts(s);
    CompactionSteps.InputSetIs(s.job);
    forall r | r in Contents(t.recs) ensures r.ik.userKey != k {
      ContentsHas(t.recs, r);
      InLevelSet(s.added, r);
      InLevelSet(s.job.lower, r);
    }
    NoVersionIn(Contents(t.recs), k, maxSeq);
  }

  /** What a lower table that spans the key of an input answers. */
  lemma LowerAnswers(s: Step, watermark: nat, maxSeq: nat, v: Record, t: Table)
    requires Ready(s, watermark, maxSeq) && NewestOfKey(InputSet(s.job), v) && s.job.level + 1 < |s.levels|
    requires t in s.job.lower && Spans(t, v.ik.userKey)
    ensures v in LevelSet(s.levels[s.job.level + 1]) ==> Newest(Contents(t.recs), v.ik.userKey, maxSeq) == Some(v)
  {
    hide *;
    var l := s.job.level + 1;
    ReadyIs(s, watermark, maxSeq);
    GoodParts(s);
    JobTables(s);
    if v in LevelSet(s.levels[l]) {
      InLevelSet(s.levels[l], v);
      var u :| u in s.levels[l] && v in u.recs;
      TableOf(s.fmt, s.files, s.levels, l, u);
      HolderSpans(s.fmt, s.files, u, v);
      OneThere(s, t, u, v.ik.userKey);
      ContentsHas(t.recs, v);
      NewestIn(InputSet(s.job), v, v);
      InputInUnion(s, watermark, maxSeq, v);
      forall r | r in Contents(t.recs)
        ensures r in Union(TableSources(s.levels)) && (r.ik.userKey == v.ik.userKey ==> r.ik.seqno <= v.ik.seqno) {
        LowerRecord(s, watermark, maxSeq, v, t, r);
      }
      SubsetUnique(Contents(t.recs), Union(TableSources(s.levels)));
      NewestThere(Contents(t.recs), v, maxSeq);
    }
  }

  lemma LowerRecord(s: Step, watermark: nat, maxSeq: nat, v: Record, t: Table, r: Record)
    requires Ready(s, watermark, maxSeq) && NewestOfKey(InputSet(s.job), v) && t in s.job.lower && r in Contents(t.recs)
    ensures r in Union(TableSources(s.levels)) && r in InputSet(s.job)
    ensures r.ik.userKey == v.ik.userKey ==> r.ik.seqno <= v.ik.seqno
  {
    hide *;
    ContentsHas(t.recs, r);
    InLevelSet(s.job.lower, r);
    CompactionSteps.InputSetIs(s.job);
    InputInUnion(s, watermark, maxSeq, r);
    NewestIn(InputSet(s.job), v, r);
  }

  lemma NewestThere(S: Source, v: Record, maxSeq: nat)
    requires v in S && v.ik.seqno <= maxSeq && OneWritePerSeq(S)
    requires forall r :: r in S && r.ik.userKey == v.ik.userKey ==> r.ik.seqno <= v.ik.seqno
    ensures Newest(S, v.ik.userKey, maxSeq) == Some(v)
  {
    forall r | r in S && Visible(r, v.ik.userKey, maxSeq) ensures r.ik.seqno <= v.ik.seqno {
      VisibleIs(r, v.ik.userKey, maxSeq);
    }
    VisibleIs(v, v.ik.userKey, maxSeq);
    NewestIs(S, v.ik.userKey, maxSeq, v);
  }

  /** The newest input version of a key. */
  lemma SomeNewest(s: Step, watermark: nat, maxSeq: nat, k: bytes, r: Record) returns (v: Record)
    requires Ready(s, watermark, maxSeq) && r in InputSet(s.job) && r.ik.userKey == k
    ensures NewestOfKey(InputSet(s.job), v) && v.ik.userKey == k
  {
    hide *;
    var I := InputSet(s.job);
    InputInUnion(s, watermark, maxSeq, r);
    VisibleIs(r, k, maxSeq);
    NewestSilent(I, k, maxSeq);
    v := Newest(I, k, maxSeq).value;
    NewestParts(I, k, maxSeq);
    forall q | q in I && q.ik.userKey == k ensures q.ik.seqno <= v.ik.seqno {
      InputInUnion(s, watermark, maxSeq, q);
      VisibleIs(q, k, maxSeq);
    }
    VisibleIs(v, k, maxSeq);
    NewestFrom(I, v);
  }

  lemma NewestParts(S: Source, k: bytes, maxSeq: nat)
    ensures var o := Newest(S, k, maxSeq);
            o.Some? ==> o.value in S && Visible(o.value, k, maxSeq)
                        && forall q :: q in S && Visible(q, k, maxSeq) ==> q.ik.seqno <= o.value.ik.seqno
  {
  }

  /** A key that no upper input has is read from the lower level on as before. */
  lemma LowerReads(s: Step, c: Catalog, watermark: nat, m: nat, k: bytes, maxSeq: nat)
    requires Ready(s, watermark, maxSeq) && SameFiles(c.files, s.levels) && m < |s.Edits()|
    requires s.job.level + 1 < |s.levels| && forall r :: r in LevelSet(s.job.upper) ==> r.ik.userKey != k
    ensures ValueOf(ReadFrom(s.fmt, CutLevelsOf(s, c, m), s.job.level + 1, k, maxSeq))
         == ValueOf(ReadFrom(s.fmt, s.levels, s.job.level + 1, k, maxSeq))
  {
    hide *;
    ReadyIs(s, watermark, maxSeq);
    if r :| r in InputSet(s.job) && r.ik.userKey == k {
      var v := SomeNewest(s, watermark, maxSeq, k, r);
      LowerHeld(s, c, watermark, m, maxSeq, v);
    } else {
      NoInputReads(s, c, watermark, m, k, maxSeq);
    }
  }

  lemma LowerHeld(s: Step, c: Catalog, watermark: nat, m: nat, maxSeq: nat, v: Record)
    requires Ready(s, watermark, maxSeq) && SameFiles(c.files, s.levels) && m < |s.Edits()|
    requires s.job.level + 1 < |s.levels| && NewestOfKey(InputSet(s.job), v)
    requires forall r :: r in LevelSet(s.job.upper) ==> r.ik.userKey != v.ik.userKey
    ensures ValueOf(ReadFrom(s.fmt, CutLevelsOf(s, c, m), s.job.level + 1, v.ik.userKey, maxSeq)) == ValueOf(Some(v))
    ensures ReadFrom(s.fmt, s.levels, s.job.level + 1, v.ik.userKey, maxSeq) == Some(v)
  {
    hide *;
    var l, k, lv := s.job.level + 1, v.ik.userKey, CutLevelsOf(s, c, m);
    ReadyIs(s, watermark, maxSeq);
    GoodParts(s);
    JobTables(s);
    NewestIn(InputSet(s.job), v, v);
    InputInLevels(s, v);
    InLevelSet(s.job.lower, v);
    var t :| t in s.job.lower && v in t.recs;
    TableOf(s.fmt, s.files, s.levels, l, t);
    HolderSpans(s.fmt, s.files, t, v);
    LowerAnswers(s, watermark, maxSeq, v, t);
    forall u | u in s.levels[l] && Spans(u, k) ensures u == t { OneThere(s, t, u, k); }
    OnlySpans(s.levels[l], k, t);
    ReadStep(s.fmt, s.levels, l, k, maxSeq);
    ReadFound(s.fmt, l, s.levels[l], k, maxSeq);
    FoundAfter(s, c, m, k);
    var f := FindInLevel(lv[l], k);
    if f.Some? && f.value in s.job.lower {
      ReadStep(s.fmt, lv, l, k, maxSeq);
      ReadFound(s.fmt, l, lv[l], k, maxSeq);
    } else {
      AllAdded(s, m);
      NewPartReads(s, c, watermark, m, maxSeq, v);
    }
  }

  // ---------------------------------------------------------------- keys of upper inputs

  /** What levels below L0 answer is in one of them. */
  lemma {:induction false} ReadHolds(fmt: Format, levels: Levels, l: nat, k: bytes, maxSeq: nat)
    requires 0 < l <= |levels|
    ensures var x := ReadFrom(fmt, levels, l, k, maxSeq);
            x.Some? ==> x.value.ik.userKey == k && exists i :: l <= i < |levels| && x.value in LevelSet(levels[i])
    decreases |levels| - l
  {
    hide *;
    if l < |levels| {
      ReadHolds(fmt, levels, l + 1, k, maxSeq);
      ReadStep(fmt, levels, l, k, maxSeq);
      ReadFound(fmt, l, levels[l], k, maxSeq);
      FoundSpans(levels[l], k);
      var f := FindInLevel(levels[l], k);
      if f.Some? {
        NewestParts(Contents(f.value.recs), k, maxSeq);
        var o := Newest(Contents(f.value.recs), k, maxSeq);
        if o.Some? {
          VisibleIs(o.value, k, maxSeq);
          ContentsHas(f.value.recs, o.value);
          InLevelSet(levels[l], o.value);
        }
      }
    } else {
      ReadEnd(fmt, levels, k, maxSeq);
    }
  }

  /** A version that is the newest of its key from level `l` on is what those levels answer. */
  lemma {:induction false} DeepReads(s: Step, watermark: nat, maxSeq: nat, l: nat, i: nat, v: Record)
    requires Ready(s, watermark, maxSeq) && 0 < l <= i < |s.levels| && v in LevelSet(s.levels[i])
    requires forall j: nat, q :: l <= j < |s.levels| && q in LevelSet(s.levels[j]) && q.ik.userKey == v.ik.userKey ==>
               q.ik.seqno <= v.ik.seqno
    ensures ReadFrom(s.fmt, s.levels, l, v.ik.userKey, maxSeq) == Some(v)
    decreases |s.levels| - l
  {
    hide *;
    var k, S := v.ik.userKey, LevelSet(s.levels[l]);
    ReadyIs(s, watermark, maxSeq);
    LevelIsTrue(s, watermark, maxSeq, l);
    ReadStep(s.fmt, s.levels, l, k, maxSeq);
    ReadDeep(s.fmt, s.files, l, s.levels[l], k, maxSeq);
    InUnion(s, watermark, maxSeq, i, v);
    if v in S {
      forall q | q in S ensures q in Union(TableSources(s.levels)) { InUnion(s, watermark, maxSeq, l, q); }
      SubsetUnique(S, Union(TableSources(s.levels)));
      NewestThere(S, v, maxSeq);
    } else {
      DeepShadows(s.levels, l, i);
      forall q | q in S ensures q.ik.userKey != k {
        if q.ik.userKey == k { ShadowsIs(S, LevelSet(s.levels[i]), q, v); }
      }
      NoVersionIn(S, k, maxSeq);
      DeepReads(s, watermark, maxSeq, l + 1, i, v);
    }
  }

  /** The newest upper version of the key is also in a level below the job. */
  ghost predicate HeldBelow(s: Step, v: Record) {
    exists i :: s.job.level < i < |s.levels| && v in LevelSet(s.levels[i])
  }

  lemma HeldIs(s: Step, v: Record)
    ensures HeldBelow(s, v) <==> exists i :: s.job.level < i < |s.levels| && v in LevelSet(s.levels[i])
  {
  }

  /** With the upper inputs of the key deleted, a lower input that is still found answers in their
      place: rightly only if it, or a level under it, holds the very version. */
  lemma HiddenReads(s: Step, c: Catalog, watermark: nat, m: nat, maxSeq: nat, v: Record)
    requires Ready(s, watermark, maxSeq) && SameFiles(c.files, s.levels) && m < |s.Edits()|
    requires s.job.level + 1 < |s.levels| && NewestOfKey(LevelSet(s.job.upper), v) && CutAdded(s, m) == s.added
    ensures var k := v.ik.userKey;
            var f := FindInLevel(CutLevelsOf(s, c, m)[s.job.level + 1], k);
            var x := ReadFrom(s.fmt, CutLevelsOf(s, c, m), s.job.level + 1, k, maxSeq);
            if f.Some? && f.value in s.job.lower && !HeldBelow(s, v) then x.None? || x.value.ik.seqno < v.ik.seqno
            else ValueOf(x) == ValueOf(Some(v))
  {
    hide *;
    var l, k, lv := s.job.level + 1, v.ik.userKey, CutLevelsOf(s, c, m);
    ReadyIs(s, watermark, maxSeq);
    UpperNewest(s, watermark, maxSeq, v);
    HeldIs(s, v);
    FoundAfter(s, c, m, k);
    var f := FindInLevel(lv[l], k);
    if f.Some? && f.value in s.job.lower {
      ReadStep(s.fmt, lv, l, k, maxSeq);
      ReadFound(s.fmt, l, lv[l], k, maxSeq);
      BelowSame(s, c, m, k, maxSeq);
      LowerAnswers(s, watermark, maxSeq, v, f.value);
      if v !in LevelSet(s.levels[l]) { OlderAnswer(s, c, watermark, m, maxSeq, v, f.value); }
    } else {
      NewPartReads(s, c, watermark, m, maxSeq, v);
    }
  }

  lemma OlderAnswer(s: Step, c: Catalog, watermark: nat, m: nat, maxSeq: nat, v: Record, t: Table)
    requires Ready(s, watermark, maxSeq) && s.job.level + 1 < |s.levels|
    requires NewestOfKey(LevelSet(s.job.upper), v) && v !in LevelSet(s.levels[s.job.level + 1])
    requires t in s.job.lower && Spans(t, v.ik.userKey)
    ensures var x := match Newest(Contents(t.recs), v.ik.userKey, maxSeq)
                     case Some(r) => Some(r)
                     case None => ReadFrom(s.fmt, s.levels, s.job.level + 2, v.ik.userKey, maxSeq);
            if HeldBelow(s, v) then x == Some(v) else x.None? || x.value.ik.seqno < v.ik.seqno
  {
    hide *;
    var l, k := s.job.level + 1, v.ik.userKey;
    ReadyIs(s, watermark, maxSeq);
    GoodParts(s);
    JobTables(s);
    UpperNewest(s, watermark, maxSeq, v);
    HeldIs(s, v);
    var o := Newest(Contents(t.recs), k, maxSeq);
    NewestParts(Contents(t.recs), k, maxSeq);
    if o.Some? {
      VisibleIs(o.value, k, maxSeq);
      LowerRecord(s, watermark, maxSeq, v, t, o.value);
      ContentsHas(t.recs, o.value);
      InLevelSet(s.levels[l], o.value);
      NewestIn(InputSet(s.job), v, v);
      InputInUnion(s, watermark, maxSeq, v);
      if o.value.ik.seqno == v.ik.seqno { SameNumber(s, watermark, maxSeq, o.value, v); }
      if i :| l < i < |s.levels| && v in LevelSet(s.levels[i]) {
        DeepShadows(s.levels, l, i);
        ShadowsIs(LevelSet(s.levels[l]), LevelSet(s.levels[i]), o.value, v);
      }
    } else {
      DeeperAnswer(s, watermark, maxSeq, v);
    }
  }

  lemma DeeperAnswer(s: Step, watermark: nat, maxSeq: nat, v: Record)
    requires Ready(s, watermark, maxSeq) && s.job.level + 1 < |s.levels|
    requires NewestOfKey(LevelSet(s.job.upper), v) && v !in LevelSet(s.levels[s.job.level + 1])
    ensures var x := ReadFrom(s.fmt, s.levels, s.job.level + 2, v.ik.userKey, maxSeq);
            if HeldBelow(s, v) then x == Some(v) else x.None? || x.value.ik.seqno < v.ik.seqno
  {
    hide *;
    var l, k := s.job.level + 2, v.ik.userKey;
    ReadyIs(s, watermark, maxSeq);
    HeldIs(s, v);
    forall j: nat, q: Record | l <= j < |s.levels| && q in LevelSet(s.levels[j]) && q.ik.userKey == k
      ensures q.ik.seqno <= v.ik.seqno { UpperOver(s, watermark, maxSeq, v, j, q); }
    if i: int :| s.job.level < i < |s.levels| && v in LevelSet(s.levels[i]) {
      DeepReads(s, watermark, maxSeq, l, i, v);
    } else {
      var x := ReadFrom(s.fmt, s.levels, l, k, maxSeq);
      ReadHolds(s.fmt, s.levels, l, k, maxSeq);
      if x.Some? {
        var i :| l <= i < |s.levels| && x.value in LevelSet(s.levels[i]);
        UpperNewest(s, watermark, maxSeq, v);
        NewestIn(InputSet(s.job), v, v);
        InputInUnion(s, watermark, maxSeq, v);
        InUnion(s, watermark, maxSeq, i, x.value);
        if x.value.ik.seqno == v.ik.seqno { SameNumber(s, watermark, maxSeq, x.value, v); }
      }
    }
  }

  // ---------------------------------------------------------------- the upper level

  lemma LastSource(ts: seq<Table>)
    ensures ts != [] ==> L0Sources(ts) == [Contents(ts[|ts| - 1].recs)] + L0Sources(ts[..|ts| - 1])
  {
  }

  lemma {:induction false} L0SourcesSplit(a: seq<Table>, b: seq<Table>)
    ensures L0Sources(a + b) == L0Sources(b) + L0Sources(a)
  {
    hide Contents;
    if b == [] {
      assert a + b == a;
    } else {
      L0SourcesSplit(a, b[..|b| - 1]);
      LastSource(b);
      LastSource(a + b);
      assert (a + b)[..|a + b| - 1] == a + b[..|b| - 1];
      hide *;
      var x, y, z := [Contents(b[|b| - 1].recs)], L0Sources(b[..|b| - 1]), L0Sources(a);
      assert x + (y + z) == (x + y) + z;
    }
  }

  lemma TailTrue(fmt: Format, files: Files, l: nat, ts: seq<Table>, u: nat)
    requires LevelTrue(fmt, files, l, ts) && u <= |ts|
    ensures LevelTrue(fmt, files, l, ts[u..])
  {
    hide WellFormedTable, OneWritePerSeq;
    assert LevelSet(ts[u..]) <= LevelSet(ts);
    SubsetUnique(LevelSet(ts[u..]), LevelSet(ts));
  }

  /** What the rest of a level answers the whole level answers. */
  lemma TailReads(fmt: Format, files: Files, l: nat, ts: seq<Table>, u: nat, k: bytes, maxSeq: nat)
    requires LevelTrue(fmt, files, l, ts) && u <= |ts| && ReadLevel(fmt, l, ts[u..], k, maxSeq).Some?
    ensures ReadLevel(fmt, l, ts, k, maxSeq) == ReadLevel(fmt, l, ts[u..], k, maxSeq)
  {
    hide *;
    TailTrue(fmt, files, l, ts, u);
    assert ts[..u] + ts[u..] == ts;
    if l == 0 {
      ReadTop(fmt, files, ts, k, maxSeq);
      ReadTop(fmt, files, ts[u..], k, maxSeq);
      L0SourcesSplit(ts[..u], ts[u..]);
      FirstHitSplit(L0Sources(ts[u..]), L0Sources(ts[..u]), k, maxSeq);
    } else {
      ReadFound(fmt, l, ts, k, maxSeq);
      ReadFound(fmt, l, ts[u..], k, maxSeq);
      FoundSpans(ts[u..], k);
      var t := FindInLevel(ts[u..], k).value;
      var r := Newest(Contents(t.recs), k, maxSeq).value;
      NewestParts(Contents(t.recs), k, maxSeq);
      VisibleIs(r, k, maxSeq);
      ContentsHas(t.recs, r);
      TrueParts(fmt, files, l, ts);
      FoundHolds(fmt, files, ts, k, t, r);
    }
  }

  lemma TrueParts(fmt: Format, files: Files, l: nat, ts: seq<Table>)
    requires LevelTrue(fmt, files, l, ts) && l > 0
    ensures DisjointLevel(ts) && forall i :: 0 <= i < |ts| ==> WellFormedTable(fmt, files, ts[i])
  {
    hide WellFormedTable, OneWritePerSeq;
  }

  lemma LevelSetSplit(ts: seq<Table>, u: nat)
    requires u <= |ts|
    ensures LevelSet(ts) == LevelSet(ts[..u]) + LevelSet(ts[u..])
  {
    assert ts == ts[..u] + ts[u..];
  }

  /** The sources of L0 are in order among themselves. */
  lemma TopOrdered(levels: Levels)
    requires levels != [] && Ordered(TableSources(levels))
    ensures Ordered(L0Sources(levels[0]))
  {
    hide Shadows, L0Sources, DeepSources;
    var a := L0Sources(levels[0]);
    assert forall i :: 0 <= i < |a| ==> TableSources(levels)[i] == a[i];
  }

  /** A level of the version answers with its newest version of the key. */
  lemma ReadNewest(s: Step, watermark: nat, maxSeq: nat, l: nat, k: bytes)
    requires Ready(s, watermark, maxSeq) && l < |s.levels|
    ensures ReadLevel(s.fmt, l, s.levels[l], k, maxSeq) == Newest(LevelSet(s.levels[l]), k, maxSeq)
  {
    hide *;
    ReadyIs(s, watermark, maxSeq);
    LevelIsTrue(s, watermark, maxSeq, l);
    var ts := s.levels[l];
    if l == 0 {
      ReadTop(s.fmt, s.files, ts, k, maxSeq);
      TopOrdered(s.levels);
      L0Union(ts);
      TrueUnique(s.fmt, s.files, l, ts);
      WalkIsNewest(L0Sources(ts), k, maxSeq);
    } else {
      ReadDeep(s.fmt, s.files, l, ts, k, maxSeq);
    }
  }

  lemma TrueUnique(fmt: Format, files: Files, l: nat, ts: seq<Table>)
    requires LevelTrue(fmt, files, l, ts)
    ensures OneWritePerSeq(LevelSet(ts))
  {
  }

  lemma SilentKey(s: Step, watermark: nat, maxSeq: nat, l: nat, ts: seq<Table>, k: bytes)
    requires Ready(s, watermark, maxSeq) && l < |s.levels| && LevelTrue(s.fmt, s.files, l, ts)
    requires LevelSet(ts) <= LevelSet(s.levels[l])
    ensures ReadLevel(s.fmt, l, ts, k, maxSeq) == None <==> forall r :: r in LevelSet(ts) ==> r.ik.userKey != k
  {
    hide *;
    LevelSilent(s.fmt, s.files, l, ts, k, maxSeq);
    forall r | r in LevelSet(ts) ensures Visible(r, k, maxSeq) <==> r.ik.userKey == k {
      InUnion(s, watermark, maxSeq, l, r);
      VisibleIs(r, k, maxSeq);
    }
  }

  // ---------------------------------------------------------------- the whole read

  /** A key whose read goes wrong after the cut: no table left above the lower level has it, an
      upper input that is already deleted has, the lower level finds an input that is still listed,
      and no level from there on holds the newest version. */
  ghost predicate Stale(s: Step, lv: Levels, k: bytes) {
    && s.job.level + 1 < |s.levels| == |lv|
    && (forall i :: 0 <= i <= s.job.level ==> forall r :: r in LevelSet(lv[i]) ==> r.ik.userKey != k)
    && (var f := FindInLevel(lv[s.job.level + 1], k); f.Some? && f.value in s.job.lower)
    && exists v :: NewestOfKey(LevelSet(s.job.upper), v) && v.ik.userKey == k && !HeldBelow(s, v)
  }

  lemma StaleIs(s: Step, lv: Levels, k: bytes)
    ensures Stale(s, lv, k) <==>
            && s.job.level + 1 < |s.levels| == |lv|
            && (forall i :: 0 <= i <= s.job.level ==> forall r :: r in LevelSet(lv[i]) ==> r.ik.userKey != k)
            && (var f := FindInLevel(lv[s.job.level + 1], k); f.Some? && f.value in s.job.lower)
            && exists v :: NewestOfKey(LevelSet(s.job.upper), v) && v.ik.userKey == k && !HeldBelow(s, v)
  {
  }

  /** `x` is what the cut levels answer, `y` what the whole ones do. */
  ghost predicate Answers(stale: bool, x: Option<Record>, y: Option<Record>) {
    if stale then y.Some? && (x.None? || x.value.ik.seqno < y.value.ik.seqno) else ValueOf(x) == ValueOf(y)
  }

  lemma AnswersIs(stale: bool, x: Option<Record>, y: Option<Record>)
    ensures Answers(stale, x, y) ==
            if stale then y.Some? && (x.None? || x.value.ik.seqno < y.value.ik.seqno) else ValueOf(x) == ValueOf(y)
  {
  }

  /** Nothing above level `l` has the key. */
  ghost predicate SilentTo(levels: Levels, l: nat, k: bytes)
    requires l <= |levels|
  {
    forall i :: 0 <= i < l ==> forall r :: r in LevelSet(levels[i]) ==> r.ik.userKey != k
  }

  lemma SilentIs(levels: Levels, l: nat, k: bytes)
    requires l <= |levels|
    ensures SilentTo(levels, l, k) <==> forall i :: 0 <= i < l ==> forall r :: r in LevelSet(levels[i]) ==> r.ik.userKey != k
  {
  }

  /** Above the job both answer alike or have nothing of the key. */
  lemma AboveReads(s: Step, c: Catalog, watermark: nat, m: nat, k: bytes, maxSeq: nat)
    requires Ready(s, watermark, maxSeq) && SameFiles(c.files, s.levels) && m < |s.Edits()|
    requires s.job.level + 1 < |s.levels|
    ensures var a, b, l := s.levels, CutLevelsOf(s, c, m), s.job.level;
            || (ReadFrom(s.fmt, a, 0, k, maxSeq) == ReadFrom(s.fmt, b, 0, k, maxSeq) && !SilentTo(a, l, k))
            || (ReadFrom(s.fmt, a, 0, k, maxSeq) == ReadFrom(s.fmt, a, l, k, maxSeq)
                && ReadFrom(s.fmt, b, 0, k, maxSeq) == ReadFrom(s.fmt, b, l, k, maxSeq) && SilentTo(a, l, k))
  {
    hide *;
    var a, b, l := s.levels, CutLevelsOf(s, c, m), s.job.level;
    ReadyIs(s, watermark, maxSeq);
    forall i: nat | i < l ensures a[i] == b[i] { CutElsewhere(s, c, m, i); }
    forall i: nat | i < l
      ensures ReadLevel(s.fmt, i, a[i], k, maxSeq) == None <==> forall r :: r in LevelSet(a[i]) ==> r.ik.userKey != k {
      LevelIsTrue(s, watermark, maxSeq, i);
      SilentKey(s, watermark, maxSeq, i, a[i], k);
    }
    SilentIs(a, l, k);
    SameAbove(s.fmt, a, b, 0, l, k, maxSeq);
    if SilentTo(a, l, k) {
      Skip(s.fmt, a, 0, l, k, maxSeq);
      Skip(s.fmt, b, 0, l, k, maxSeq);
    } else {
      HitAbove(s.fmt, a, b, 0, l, k, maxSeq);
    }
  }

  lemma {:induction false} Skip(fmt: Format, levels: Levels, j: nat, l: nat, k: bytes, maxSeq: nat)
    requires j <= l <= |levels| && forall i: nat :: j <= i < l ==> ReadLevel(fmt, i, levels[i], k, maxSeq) == None
    ensures ReadFrom(fmt, levels, j, k, maxSeq) == ReadFrom(fmt, levels, l, k, maxSeq)
    decreases l - j
  {
    hide *;
    if j < l {
      ReadStep(fmt, levels, j, k, maxSeq);
      Skip(fmt, levels, j + 1, l, k, maxSeq);
    }
  }

  lemma {:induction false} HitAbove(fmt: Format, a: Levels, b: Levels, j: nat, l: nat, k: bytes, maxSeq: nat)
    requires |a| == |b| && j <= l <= |a| && forall i :: j <= i < l ==> a[i] == b[i]
    requires exists i: nat :: j <= i < l && ReadLevel(fmt, i, a[i], k, maxSeq) != None
    ensures ReadFrom(fmt, a, j, k, maxSeq) == ReadFrom(fmt, b, j, k, maxSeq)
    decreases l - j
  {
    hide *;
    ReadStep(fmt, a, j, k, maxSeq);
    ReadStep(fmt, b, j, k, maxSeq);
    if ReadLevel(fmt, j, a[j], k, maxSeq) == None { HitAbove(fmt, a, b, j + 1, l, k, maxSeq); }
  }

  /** Every read after a cut inside the edits of a compaction: right unless the key is stale, and
      then an older version or none. */
  lemma CutReadsAll(s: Step, c: Catalog, watermark: nat, m: nat, k: bytes, maxSeq: nat)
    requires Ready(s, watermark, maxSeq) && SameFiles(c.files, s.levels) && m < |s.Edits()|
    ensures Answers(Stale(s, CutLevelsOf(s, c, m), k), ReadFrom(s.fmt, CutLevelsOf(s, c, m), 0, k, maxSeq),
                    ReadFrom(s.fmt, s.levels, 0, k, maxSeq))
  {
    hide *;
    var a, b, l := s.levels, CutLevelsOf(s, c, m), s.job.level;
    ReadyIs(s, watermark, maxSeq);
    GoodParts(s);
    AboveReads(s, c, watermark, m, k, maxSeq);
    forall i: nat | i < l ensures a[i] == b[i] { CutElsewhere(s, c, m, i); }
    SilentIs(a, l, k);
    StaleIs(s, b, k);
    AnswersIs(Stale(s, b, k), ReadFrom(s.fmt, b, 0, k, maxSeq), ReadFrom(s.fmt, a, 0, k, maxSeq));
    if SilentTo(a, l, k) {
      SilentIs(b, l, k);
      AtJob(s, c, watermark, m, k, maxSeq);
      AnswersIs(Stale(s, b, k), ReadFrom(s.fmt, b, l, k, maxSeq), ReadFrom(s.fmt, a, l, k, maxSeq));
    }
  }

  /** From the level of the job on. */
  lemma AtJob(s: Step, c: Catalog, watermark: nat, m: nat, k: bytes, maxSeq: nat)
    requires Ready(s, watermark, maxSeq) && SameFiles(c.files, s.levels) && m < |s.Edits()|
    requires s.job.level + 1 < |s.levels| && SilentTo(CutLevelsOf(s, c, m), s.job.level, k)
    ensures Answers(Stale(s, CutLevelsOf(s, c, m), k), ReadFrom(s.fmt, CutLevelsOf(s, c, m), s.job.level, k, maxSeq),
                    ReadFrom(s.fmt, s.levels, s.job.level, k, maxSeq))
  {
    hide *;
    var a, b, l, u := s.levels, CutLevelsOf(s, c, m), s.job.level, UpsIn(s, m);
    ReadyIs(s, watermark, maxSeq);
    CutUpper(s, c, m);
    LevelIsTrue(s, watermark, maxSeq, l);
    TailTrue(s.fmt, s.files, l, a[l], u);
    LevelSetSplit(a[l], u);
    SilentKey(s, watermark, maxSeq, l, b[l], k);
    ReadStep(s.fmt, a, l, k, maxSeq);
    ReadStep(s.fmt, b, l, k, maxSeq);
    StaleIs(s, b, k);
    SilentIs(b, l, k);
    AnswersIs(Stale(s, b, k), ReadFrom(s.fmt, b, l, k, maxSeq), ReadFrom(s.fmt, a, l, k, maxSeq));
    if ReadLevel(s.fmt, l, b[l], k, maxSeq).Some? {
      TailReads(s.fmt, s.files, l, a[l], u, k, maxSeq);
    } else {
      UpperSplit(s, m, u);
      if r :| r in LevelSet(s.job.upper) && r.ik.userKey == k {
        UpperHidden(s, c, watermark, m, k, maxSeq, r);
      } else {
        SilentKey(s, watermark, maxSeq, l, a[l], k);
        LowerReads(s, c, watermark, m, k, maxSeq);
        NoUpperStale(s, b, k);
      }
    }
  }

  lemma NoUpperStale(s: Step, lv: Levels, k: bytes)
    requires forall r :: r in LevelSet(s.job.upper) ==> r.ik.userKey != k
    ensures !Stale(s, lv, k)
  {
    hide FindInLevel, LevelSet;
  }

  /** Upper inputs that are not deleted are in the rest of the level. */
  lemma UpperSplit(s: Step, m: nat, u: nat)
    requires s.Good() && u == UpsIn(s, m)
    ensures s.job.level < |s.levels| && u <= |s.levels[s.job.level]|
    ensures LevelSet(s.job.upper) <= LevelSet(s.levels[s.job.level][..u]) + LevelSet(s.levels[s.job.level][u..])
    ensures LevelSet(s.levels[s.job.level][..u]) <= LevelSet(s.job.upper)
  {
    hide Step.Good;
    UpperIs(s);
    var up, ts := s.job.upper, s.levels[s.job.level];
    assert up[..u] == ts[..u];
    LevelSetSplit(up, u);
    assert forall t :: t in up[u..] ==> t in ts[u..] by {
      forall t | t in up[u..] ensures t in ts[u..] {
        var i :| 0 <= i < |up| - u && up[u..][i] == t;
        assert ts[u..][i] == t;
      }
    }
    assert LevelSet(up[u..]) <= LevelSet(ts[u..]);
  }

  lemma UpperHidden(s: Step, c: Catalog, watermark: nat, m: nat, k: bytes, maxSeq: nat, r: Record)
    requires Ready(s, watermark, maxSeq) && SameFiles(c.files, s.levels) && m < |s.Edits()|
    requires s.job.level + 1 < |s.levels| && SilentTo(CutLevelsOf(s, c, m), s.job.level, k)
    requires r in LevelSet(s.job.upper) && r.ik.userKey == k
    requires forall q :: q in LevelSet(CutLevelsOf(s, c, m)[s.job.level]) ==> q.ik.userKey != k
    ensures Answers(Stale(s, CutLevelsOf(s, c, m), k), ReadFrom(s.fmt, CutLevelsOf(s, c, m), s.job.level + 1, k, maxSeq),
                    ReadLevel(s.fmt, s.job.level, s.levels[s.job.level], k, maxSeq))
    ensures ReadLevel(s.fmt, s.job.level, s.levels[s.job.level], k, maxSeq).Some?
  {
    hide *;
    var b, l, u := CutLevelsOf(s, c, m), s.job.level, UpsIn(s, m);
    ReadyIs(s, watermark, maxSeq);
    CutUpper(s, c, m);
    UpperSplit(s, m, u);
    LevelSetSplit(s.levels[l], u);
    ReadNewest(s, watermark, maxSeq, l, k);
    InUnion(s, watermark, maxSeq, l, r);
    VisibleIs(r, k, maxSeq);
    NewestSilent(LevelSet(s.levels[l]), k, maxSeq);
    NewestParts(LevelSet(s.levels[l]), k, maxSeq);
    var v := Newest(LevelSet(s.levels[l]), k, maxSeq).value;
    VisibleIs(v, k, maxSeq);
    forall q | q in LevelSet(s.job.upper) && q.ik.userKey == k ensures q.ik.seqno <= v.ik.seqno {
      InUnion(s, watermark, maxSeq, l, q);
      VisibleIs(q, k, maxSeq);
    }
    NewestFrom(LevelSet(s.job.upper), v);
    UpperCut(s, m);
    HiddenReads(s, c, watermark, m, maxSeq, v);
    StaleHere(s, c, watermark, m, maxSeq, v);
    var x := ReadFrom(s.fmt, b, l + 1, k, maxSeq);
    AnswersIs(Stale(s, b, k), x, Some(v));
  }

  /** As long as nothing was deleted, once every input was, or without lower inputs, no key is stale. */
  lemma NoneStale(s: Step, c: Catalog, m: nat, k: bytes)
    requires s.Good() && SameFiles(c.files, s.levels) && m < |s.Edits()|
    requires m <= |s.added| || m + 1 == |s.Edits()| || s.job.lower == []
    ensures !Stale(s, CutLevelsOf(s, c, m), k)
  {
    hide *;
    var b, l := CutLevelsOf(s, c, m), s.job.level;
    StaleIs(s, b, k);
    if Stale(s, b, k) {
      GoodParts(s);
      var v :| NewestOfKey(LevelSet(s.job.upper), v) && v.ik.userKey == k && !HeldBelow(s, v);
      NewestIn(LevelSet(s.job.upper), v, v);
      CutCounts(s, m);
      if m <= |s.added| {
        CutUpper(s, c, m);
        UpperSplit(s, m, 0);
        UpperCut(s, m);
        NothingSet();
      } else {
        var t := FindInLevel(b[l + 1], k).value;
        FoundSpans(b[l + 1], k);
        CutLevel(s, c, m, l + 1);
        CutStaysIs(s, m, l + 1, t);
        CutUpperIs(s, m);
        JobTables(s);
        AddedTable(s, t);
        KeptTable(s, l + 1, t);
      }
    }
  }

  lemma NothingSet()
    ensures LevelSet([]) == {}
  {
  }

  lemma CutCounts(s: Step, m: nat)
    requires m < |s.Edits()|
    ensures m <= |s.added| ==> UpsIn(s, m) == 0
    ensures m + 1 == |s.Edits()| ==> s.job.lower[..LowsIn(s, m)] == s.job.lower
    ensures forall t :: t in CutAdded(s, m) ==> t in s.added
  {
    EditCount(s);
    hide Step.Edits;
  }

  lemma UpperCut(s: Step, m: nat)
    requires s.Good()
    ensures UpsIn(s, m) > 0 ==> CutAdded(s, m) == s.added
    ensures UpsIn(s, m) == 0 ==> s.levels[s.job.level][0..] == s.levels[s.job.level]
  {
    hide Step.Good;
    UpperIs(s);
    assert s.added[..|s.added|] == s.added;
  }

  lemma StaleHere(s: Step, c: Catalog, watermark: nat, m: nat, maxSeq: nat, v: Record)
    requires Ready(s, watermark, maxSeq) && m < |s.Edits()| && s.job.level + 1 < |s.levels|
    requires NewestOfKey(LevelSet(s.job.upper), v) && SilentTo(CutLevelsOf(s, c, m), s.job.level, v.ik.userKey)
    requires forall q :: q in LevelSet(CutLevelsOf(s, c, m)[s.job.level]) ==> q.ik.userKey != v.ik.userKey
    ensures var f := FindInLevel(CutLevelsOf(s, c, m)[s.job.level + 1], v.ik.userKey);
            Stale(s, CutLevelsOf(s, c, m), v.ik.userKey) <==> f.Some? && f.value in s.job.lower && !HeldBelow(s, v)
  {
    hide *;
    var k, b := v.ik.userKey, CutLevelsOf(s, c, m);
    StaleIs(s, b, k);
    SilentIs(b, s.job.level, k);
    if n :| NewestOfKey(LevelSet(s.job.upper), n) && n.ik.userKey == k && !HeldBelow(s, n) {
      NewestIn(LevelSet(s.job.upper), v, n);
      NewestIn(LevelSet(s.job.upper), n, v);
      UpperNewest(s, watermark, maxSeq, v);
      UpperNewest(s, watermark, maxSeq, n);
      SameNewest(s, watermark, maxSeq, v, n);
    }
  }
}
