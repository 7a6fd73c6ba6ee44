/** The sources around one compaction of the levels, and why reads survive it. */
module LevelFaith {
  import opened ByteStrings
  import opened Records
  import opened Builder
  import opened Versions
  import opened Sources
  import opened Histories
  import opened CompactionFaith
  import opened Compaction
  import opened Releveling
  import opened CompactedLevels

  // ---------------------------------------------------------------- levels around the job

  lemma {:induction false} DeepSplit(a: Levels, b: Levels)
    ensures DeepSources(a + b) == DeepSources(a) + DeepSources(b)
  {
    if a == [] {
      assert a + b == b;
    } else {
      hide LevelSet;
      DeepSplit(a[1..], b);
      assert (a + b)[1..] == a[1..] + b;
    }
  }

  lemma DeepPair(levels: Levels, l: nat)
    requires l + 1 < |levels|
    ensures DeepSources(levels[l..]) == [LevelSet(levels[l]), LevelSet(levels[l + 1])] + DeepSources(levels[l + 2..])
  {
    hide LevelSet;
    assert levels[l..][1..] == levels[l + 1..] && levels[l + 1..][1..] == levels[l + 2..];
  }

  /** The sources above level `l >= 1`. */
  function TopSources(levels: Levels, l: nat): seq<Source>
    requires 1 <= l <= |levels|
  {
    L0Sources(levels[0]) + DeepSources(levels[1..l])
  }

  lemma AroundDeep(levels: Levels, l: nat)
    requires 1 <= l && l + 1 < |levels|
    ensures TableSources(levels)
         == TopSources(levels, l) + [LevelSet(levels[l])] + [LevelSet(levels[l + 1])] + DeepSources(levels[l + 2..])
  {
    hide LevelSet, L0Sources;
    DeepPair(levels, l);
    DeepSplit(levels[1..l], levels[l..]);
    assert levels[1..l] + levels[l..] == levels[1..];
  }

  lemma AroundTop(levels: Levels)
    requires |levels| >= 2
    ensures TableSources(levels) == L0Sources(levels[0]) + [LevelSet(levels[1])] + DeepSources(levels[2..])
  {
    hide LevelSet, L0Sources;
    assert levels[1..][1..] == levels[2..];
  }

  // ---------------------------------------------------------------- what the step leaves in each level

  /** A level the job does not touch is the very same sequence of tables. */
  lemma LevelUntouched(s: Step, l: nat)
    requires s.Good() && l < |s.levels| && l != s.job.level && l != s.job.level + 1
    ensures |s.NewLevels()| == |s.levels| && s.NewLevels()[l] == s.levels[l]
  {
    hide *;
    var v := s.NewLevels();
    StepParts(s);
    GoodParts(s);
    NewLevelMembers(s, l);
    NewLevelsSound(s);
    StrictLevel(s.fmt, s.files, s.levels, s.next, l);
    StrictLevel(s.fmt, s.NewFiles(), v, s.next + |s.added|, l);
    forall t ensures t in v[l] <==> t in s.levels[l] { StaysElsewhere(s, l, t); }
    OrderedIsCanonical(l, v[l], s.levels[l]);
  }

  lemma StaysElsewhere(s: Step, l: nat, t: Table)
    requires l < |s.levels| && l != s.job.level && l != s.job.level + 1
    ensures s.Stays(l, t) <==> t in s.levels[l]
  {
  }

  lemma StrictLevel(fmt: Format, files: Files, levels: Levels, next: nat, l: nat)
    requires Sound(fmt, files, levels, next) && l < |levels|
    ensures StrictlyOrdered(l, levels[l])
  {
    hide WellFormedTable, UniqueNums, NumsBelow;
    OrderedLevelIsStrict(fmt, files, l, levels[l]);
  }

  lemma OtherTableOtherKey(fmt: Format, files: Files, levels: Levels, l: nat, t: Table, u: Table, q: Record, r: Record)
    requires WellFormed(fmt, files, levels) && 0 < l < |levels|
    requires t in levels[l] && u in levels[l] && t != u && q in t.recs && r in u.recs
    ensures q.ik.userKey != r.ik.userKey
  {
    hide WellFormed, WellFormedTable, Lt;
    TableOf(fmt, files, levels, l, t);
    TableOf(fmt, files, levels, l, u);
    LevelDisjoint(fmt, files, levels, l);
    hide DisjointLevel;
    DisjointPair(levels[l], t, u);
    RangeOf(fmt, files, t, q);
    RangeOf(fmt, files, u, r);
    if q.ik.userKey == r.ik.userKey {
      if RangeBelow(t, u) { OneSpans(t, u, q.ik.userKey); } else { OneSpans(u, t, q.ik.userKey); }
    }
  }

  /** Removing whole tables of a disjoint level removes whole keys. */
  lemma Remainder(fmt: Format, files: Files, levels: Levels, l: nat, gone: seq<Table>, r: Record)
    requires WellFormed(fmt, files, levels) && 0 < l < |levels| && forall t :: t in gone ==> t in levels[l]
    ensures r in LevelSet(levels[l]) - LevelSet(gone) <==> exists t :: t in levels[l] && t !in gone && r in t.recs
    ensures r in LevelSet(levels[l]) - LevelSet(gone) ==> forall q :: q in LevelSet(gone) ==> q.ik.userKey != r.ik.userKey
  {
    hide WellFormed, LevelSet;
    InLevelSet(levels[l], r);
    InLevelSet(gone, r);
    if t :| t in levels[l] && t !in gone && r in t.recs {
      forall q | q in LevelSet(gone) ensures q.ik.userKey != r.ik.userKey {
        InLevelSet(gone, q);
        var u :| u in gone && q in u.recs;
        OtherTableOtherKey(fmt, files, levels, l, t, u, r, q);
      }
    }
  }

  lemma UpperAfter(s: Step)
    requires s.Good() && s.job.level > 0
    ensures |s.NewLevels()| == |s.levels|
    ensures LevelSet(s.NewLevels()[s.job.level]) == LevelSet(s.levels[s.job.level]) - LevelSet(s.job.upper)
  {
    hide *;
    var l := s.job.level;
    GoodParts(s);
    StepParts(s);
    JobTables(s);
    NewLevelMembers(s, l);
    var v := s.NewLevels();
    forall r ensures r in LevelSet(v[l]) <==> r in LevelSet(s.levels[l]) - LevelSet(s.job.upper) {
      InLevelSet(v[l], r);
      Remainder(s.fmt, s.files, s.levels, l, s.job.upper, r);
      forall t ensures s.Stays(l, t) <==> t in s.levels[l] && t !in s.job.upper { StaysUpper(s, t); }
    }
  }

  lemma StaysUpper(s: Step, t: Table)
    requires s.job.level < |s.levels|
    ensures s.Stays(s.job.level, t) <==> t in s.levels[s.job.level] && t !in s.job.upper
  {
  }

  lemma StaysLower(s: Step, t: Table)
    requires s.job.level + 1 < |s.levels|
    ensures s.Stays(s.job.level + 1, t) <==> (t in s.levels[s.job.level + 1] && t !in s.job.lower) || t in s.added
  {
  }

  lemma LowerAfter(s: Step)
    requires s.Good()
    ensures |s.NewLevels()| == |s.levels|
    ensures LevelSet(s.NewLevels()[s.job.level + 1])
         == LevelSet(s.levels[s.job.level + 1]) - LevelSet(s.job.lower) + LevelSet(s.added)
  {
    hide *;
    var l := s.job.level + 1;
    GoodParts(s);
    StepParts(s);
    JobTables(s);
    NewLevelMembers(s, l);
    var v := s.NewLevels();
    forall r ensures r in LevelSet(v[l]) <==> r in LevelSet(s.levels[l]) - LevelSet(s.job.lower) + LevelSet(s.added) {
      InLevelSet(v[l], r);
      InLevelSet(s.added, r);
      Remainder(s.fmt, s.files, s.levels, l, s.job.lower, r);
      forall t ensures s.Stays(l, t) <==> (t in s.levels[l] && t !in s.job.lower) || t in s.added { StaysLower(s, t); }
    }
  }

  /** A compaction of L0 takes all of it. */
  lemma TopEmptied(s: Step)
    requires s.Good() && s.job.level == 0
    ensures |s.NewLevels()| == |s.levels| && s.NewLevels()[0] == []
  {
    hide *;
    GoodParts(s);
    StepParts(s);
    NewLevelMembers(s, 0);
    JobIs(s);
    SomeTable(s.NewLevels()[0]);
    forall t ensures !s.Stays(0, t) { StaysUpper(s, t); }
  }

  lemma JobIs(s: Step)
    requires s.Good()
    ensures s.job.level == 0 ==> s.job.upper == s.levels[0]
    ensures s.job.level > 0 ==> s.levels[s.job.level] != [] && s.job.upper == [s.levels[s.job.level][0]]
  {
    hide Sound, FreshTables, DisjointLevel, LevelSet, InputSet, Overlapping;
  }

  // ---------------------------------------------------------------- the parts of the step

  /** The sources around the job when `above` lie over the table files. */
  function PartsOf(s: Step, above: seq<Source>): Parts
    requires s.job.level + 1 < |s.levels|
  {
    var l := s.job.level;
    Parts(if l == 0 then above else above + TopSources(s.levels, l),
          if l == 0 then L0Sources(s.levels[0]) else [LevelSet(s.levels[l])],
          LevelSet(s.levels[l + 1]), DeepSources(s.levels[l + 2..]),
          LevelSet(s.job.upper), LevelSet(s.job.lower), LevelSet(s.added))
  }

  lemma PartsBefore(s: Step, above: seq<Source>)
    requires s.job.level + 1 < |s.levels|
    ensures PartsOf(s, above).Before() == above + TableSources(s.levels)
  {
    hide *;
    var l, p := s.job.level, PartsOf(s, above);
    PartsFields(s, above);
    BeforeIs(p);
    if l == 0 {
      AroundTop(s.levels);
      TopAbove(s, above);
      assert p.Before() == above + (p.uppers + [p.low] + p.deeper);
    } else {
      AroundDeep(s.levels, l);
      AboveIs(s, above);
      assert p.Before() == above + (TopSources(s.levels, l) + p.uppers + [p.low] + p.deeper);
    }
  }

  lemma BeforeIs(p: Parts)
    ensures p.Before() == p.above + p.uppers + [p.low] + p.deeper
  {
  }

  lemma {:induction false} L0Part(ts: seq<Table>, i: nat)
    requires i < |L0Sources(ts)|
    ensures L0Sources(ts)[i] <= LevelSet(ts)
  {
    hide LevelSet;
    L0Length(ts);
    L0At(ts, i);
    forall r | r in L0Sources(ts)[i] ensures r in LevelSet(ts) {
      InLevelSet(ts, r);
      assert ts[|ts| - 1 - i] in ts;
    }
  }

  lemma L0Whole(ts: seq<Table>, r: Record)
    requires r in LevelSet(ts)
    ensures exists i :: 0 <= i < |L0Sources(ts)| && r in L0Sources(ts)[i]
  {
    hide LevelSet, L0Sources;
    L0Union(ts);
    UnionMembers(L0Sources(ts), r);
  }

  lemma PartsUpper(s: Step, above: seq<Source>)
    requires s.Good()
    ensures var p := PartsOf(s, above);
            && (forall r :: r in p.upperIn ==> exists i :: 0 <= i < |p.uppers| && r in p.uppers[i])
            && (forall i :: 0 <= i < |p.uppers| ==> KeyDisjoint(p.uppers[i] - p.upperIn, p.upperIn))
            && (s.job.level == 0 ==> forall i :: 0 <= i < |p.uppers| ==> p.uppers[i] - p.upperIn == {})
  {
    hide *;
    GoodParts(s);
    var l, p := s.job.level, PartsOf(s, above);
    JobIs(s);
    JobTables(s);
    PartsFields(s, above);
    if l == 0 {
      forall r | r in p.upperIn ensures exists i :: 0 <= i < |p.uppers| && r in p.uppers[i] { L0Whole(s.levels[0], r); }
      forall i | 0 <= i < |p.uppers|
        ensures p.uppers[i] - p.upperIn == {} && KeyDisjoint(p.uppers[i] - p.upperIn, p.upperIn) {
        L0Part(s.levels[0], i);
        NothingDisjoint(p.upperIn);
      }
    } else {
      forall r | r in p.upperIn ensures r in p.uppers[0] {
        InLevelSet(s.job.upper, r);
        InLevelSet(s.levels[l], r);
      }
      KeyGroups(s.fmt, s.files, s.levels, l, s.job.upper);
    }
  }

  lemma NothingDisjoint(x: Source)
    ensures KeyDisjoint({}, x)
  {
  }

  lemma PartsFields(s: Step, above: seq<Source>)
    requires s.job.level + 1 < |s.levels|
    ensures var l, p := s.job.level, PartsOf(s, above);
            && p.uppers == (if l == 0 then L0Sources(s.levels[0]) else [LevelSet(s.levels[l])])
            && p.low == LevelSet(s.levels[l + 1]) && p.deeper == DeepSources(s.levels[l + 2..])
            && p.upperIn == LevelSet(s.job.upper) && p.lowerIn == LevelSet(s.job.lower) && p.output == LevelSet(s.added)
            && p.Inputs() == InputSet(s.job)
  {
  }

  lemma KeyGroups(fmt: Format, files: Files, levels: Levels, l: nat, gone: seq<Table>)
    requires WellFormed(fmt, files, levels) && 0 < l < |levels| && forall t :: t in gone ==> t in levels[l]
    ensures KeyDisjoint(LevelSet(levels[l]) - LevelSet(gone), LevelSet(gone))
  {
    hide WellFormed, LevelSet;
    forall q | q in LevelSet(levels[l]) - LevelSet(gone)
      ensures forall r :: r in LevelSet(gone) ==> q.ik.userKey != r.ik.userKey {
      Remainder(fmt, files, levels, l, gone, q);
    }
  }

  lemma PartsLower(s: Step, above: seq<Source>)
    requires s.Good()
    ensures PartsOf(s, above).lowerIn <= PartsOf(s, above).low
    ensures KeyDisjoint(PartsOf(s, above).low - PartsOf(s, above).lowerIn, PartsOf(s, above).Inputs())
  {
    hide *;
    GoodParts(s);
    var l, p := s.job.level, PartsOf(s, above);
    JobTables(s);
    PartsFields(s, above);
    forall r | r in p.lowerIn ensures r in p.low {
      InLevelSet(s.job.lower, r);
      InLevelSet(s.levels[l + 1], r);
    }
    forall q, r | q in p.low - p.lowerIn && r in InputSet(s.job) ensures q.ik.userKey != r.ik.userKey {
      Remainder(s.fmt, s.files, s.levels, l + 1, s.job.lower, q);
      var t :| t in s.levels[l + 1] && t !in s.job.lower && q in t.recs;
      ClearOfInput(s, t, q, r);
    }
    KeyDisjointIs(p.low - p.lowerIn, InputSet(s.job));
  }

  lemma KeyDisjointIs(x: Source, y: Source)
    requires forall q, r :: q in x && r in y ==> q.ik.userKey != r.ik.userKey
    ensures KeyDisjoint(x, y)
  {
  }

  lemma ClearOfInput(s: Step, t: Table, q: Record, r: Record)
    requires s.Good() && t in s.levels[s.job.level + 1] && t !in s.job.lower && q in t.recs && r in InputSet(s.job)
    ensures q.ik.userKey != r.ik.userKey
  {
    hide *;
    GoodParts(s);
    NonInputClear(s.fmt, s.files, s.levels, s.job, t);
    TableOf(s.fmt, s.files, s.levels, s.job.level + 1, t);
    RangeOf(s.fmt, s.files, t, q);
    ClearCases(t, InputSet(s.job), r);
    LeqLt(q.ik.userKey, t.largest, r.ik.userKey);
    LeqLt(r.ik.userKey, t.smallest, q.ik.userKey);
    LtIrreflexive(q.ik.userKey);
  }

  lemma ClearCases(t: Table, I: Source, r: Record)
    requires Clear(t, I) && r in I
    ensures Lt(t.largest, r.ik.userKey) || Lt(r.ik.userKey, t.smallest)
  {
  }

  lemma LtIrreflexive(a: bytes)
    ensures !Lt(a, a)
  {
    if Lt(a, a) { LtAsym(a, a); }
  }

  /** The output of the job, as a source, holds the newest version of each input key. */
  ghost predicate Writes(s: Step, watermark: nat) {
    KeepsNewest(InputSet(s.job), LevelSet(s.added), s.job.level + 2 >= |s.levels|, watermark)
  }

  lemma PartsFit(s: Step, above: seq<Source>, watermark: nat)
    requires s.Good() && Writes(s, watermark)
    ensures PartsOf(s, above).Fits(s.job.level + 2 >= |s.levels|, watermark)
  {
    hide *;
    GoodParts(s);
    PartsFields(s, above);
    PartsUpper(s, above);
    PartsLower(s, above);
    WritesIs(s, watermark);
    if s.job.level + 2 >= |s.levels| {
      assert s.levels[s.job.level + 2..] == [];
      NoDeepSources();
    }
    FitsIs(PartsOf(s, above), s.job.level + 2 >= |s.levels|, watermark);
  }

  lemma WritesIs(s: Step, watermark: nat)
    ensures Writes(s, watermark)
         == KeepsNewest(InputSet(s.job), LevelSet(s.added), s.job.level + 2 >= |s.levels|, watermark)
  {
  }

  lemma FitsIs(p: Parts, lastLevel: bool, watermark: nat)
    requires forall r :: r in p.upperIn ==> exists i :: 0 <= i < |p.uppers| && r in p.uppers[i]
    requires forall i :: 0 <= i < |p.uppers| ==> KeyDisjoint(p.uppers[i] - p.upperIn, p.upperIn)
    requires p.lowerIn <= p.low && KeyDisjoint(p.low - p.lowerIn, p.Inputs())
    requires KeepsNewest(p.Inputs(), p.output, lastLevel, watermark) && (lastLevel ==> p.deeper == [])
    ensures p.Fits(lastLevel, watermark)
  {
  }

  lemma NoDeepSources()
    ensures DeepSources([]) == []
  {
  }

  // ---------------------------------------------------------------- the sources afterwards

  lemma DeepAfter(s: Step, above: seq<Source>)
    requires s.Good() && s.job.level > 0
    ensures PartsOf(s, above).After() == above + TableSources(s.NewLevels())
  {
    hide *;
    GoodParts(s);
    var l, v, p := s.job.level, s.NewLevels(), PartsOf(s, above);
    StepParts(s);
    PartsFields(s, above);
    UpperAfter(s);
    LowerAfter(s);
    forall i: nat | i < |v| && i != l && i != l + 1 ensures v[i] == s.levels[i] { LevelUntouched(s, i); }
    assert v[l + 2..] == s.levels[l + 2..];
    assert v[1..l] == s.levels[1..l];
    TopIs(v, l);
    TopIs(s.levels, l);
    AroundDeep(v, l);
    OneUpperAfter(p);
    AboveIs(s, above);
    assert above + (TopSources(v, l) + [LevelSet(v[l])] + [LevelSet(v[l + 1])] + DeepSources(v[l + 2..]))
        == above + TopSources(v, l) + [LevelSet(v[l])] + [LevelSet(v[l + 1])] + DeepSources(v[l + 2..]);
  }

  lemma TopIs(levels: Levels, l: nat)
    requires 1 <= l <= |levels|
    ensures TopSources(levels, l) == L0Sources(levels[0]) + DeepSources(levels[1..l])
  {
  }

  lemma AboveIs(s: Step, above: seq<Source>)
    requires 0 < s.job.level && s.job.level + 1 < |s.levels|
    ensures PartsOf(s, above).above == above + TopSources(s.levels, s.job.level)
  {
  }

  lemma OneUpperAfter(p: Parts)
    requires |p.uppers| == 1
    ensures p.After() == p.above + [p.uppers[0] - p.upperIn] + [p.low - p.lowerIn + p.output] + p.deeper
  {
    assert p.UppersAfter() == [p.uppers[0] - p.upperIn];
  }

  /** After a compaction of L0 its sources are empty and drop out of the list. */
  lemma TopAfterIs(s: Step, above: seq<Source>) returns (rest: seq<Source>)
    requires s.Good() && s.job.level == 0
    ensures PartsOf(s, above).After() == above + PartsOf(s, above).UppersAfter() + rest
    ensures above + TableSources(s.NewLevels()) == above + rest
    ensures forall i :: 0 <= i < |PartsOf(s, above).UppersAfter()| ==> PartsOf(s, above).UppersAfter()[i] == {}
  {
    hide *;
    GoodParts(s);
    var v, p := s.NewLevels(), PartsOf(s, above);
    StepParts(s);
    PartsFields(s, above);
    TopEmptied(s);
    LowerAfter(s);
    forall i: nat | i < |v| && i != 0 && i != 1 ensures v[i] == s.levels[i] { LevelUntouched(s, i); }
    assert v[2..] == s.levels[2..];
    AroundTop(v);
    NoL0Sources();
    PartsUpper(s, above);
    TopAbove(s, above);
    rest := [LevelSet(v[1])] + DeepSources(v[2..]);
    AfterIs(p);
    assert p.After() == above + p.UppersAfter() + rest;
    assert TableSources(v) == rest;
  }

  lemma TopAfter(s: Step, above: seq<Source>, H: History)
    requires s.Good() && s.job.level == 0 && Faithful(PartsOf(s, above).After(), H)
    ensures Faithful(above + TableSources(s.NewLevels()), H)
  {
    hide *;
    GoodParts(s);
    var rest := TopAfterIs(s, above);
    EmptiesDrop(above, PartsOf(s, above).UppersAfter(), rest, H);
  }

  lemma TopAfterUnion(s: Step, above: seq<Source>)
    requires s.Good() && s.job.level == 0
    ensures Union(PartsOf(s, above).After()) == Union(above + TableSources(s.NewLevels()))
  {
    hide *;
    GoodParts(s);
    var rest := TopAfterIs(s, above);
    EmptiesUnion(above, PartsOf(s, above).UppersAfter(), rest);
  }

  lemma TopAbove(s: Step, above: seq<Source>)
    requires s.job.level == 0 && 1 < |s.levels|
    ensures PartsOf(s, above).above == above
  {
  }

  lemma AfterIs(p: Parts)
    ensures p.After() == p.above + p.UppersAfter() + [p.low - p.lowerIn + p.output] + p.deeper
    ensures |p.UppersAfter()| == |p.uppers|
    ensures forall i :: 0 <= i < |p.uppers| ==> p.UppersAfter()[i] == p.uppers[i] - p.upperIn
  {
  }

  lemma NoL0Sources()
    ensures L0Sources([]) == []
  {
  }

  lemma EmptiesUnion(a: seq<Source>, empties: seq<Source>, c: seq<Source>)
    requires forall i :: 0 <= i < |empties| ==> empties[i] == {}
    ensures Union(a + empties + c) == Union(a + c)
  {
    hide Union;
    UnionSplit(a + empties, c);
    UnionSplit(a, empties);
    UnionSplit(a, c);
    forall r ensures r !in Union(empties) { UnionMembers(empties, r); }
    assert Union(empties) == {};
  }

  lemma EmptiesDrop(a: seq<Source>, empties: seq<Source>, c: seq<Source>, H: History)
    requires Faithful(a + empties + c, H) && forall i :: 0 <= i < |empties| ==> empties[i] == {}
    ensures Faithful(a + c, H)
  {
    hide Ordered, Covers, Union;
    OrderedDrop(a, empties, c);
    EmptiesUnion(a, empties, c);
    SameUnionFaithful(a + empties + c, a + c, H);
  }

  /** Compaction preserves meaning: whatever sources lie above the tables, if reads through them
      were faithful to a history before the compaction they are faithful to it afterwards. */
  lemma CompactionFaithful(s: Step, above: seq<Source>, watermark: nat, H: History)
    requires s.Good() && Writes(s, watermark)
    requires Increasing(H) && Faithful(above + TableSources(s.levels), H)
    ensures Faithful(above + TableSources(s.NewLevels()), H)
  {
    hide *;
    GoodParts(s);
    PartsBefore(s, above);
    PartsFit(s, above, watermark);
    CompactionKeepsFaith(PartsOf(s, above), s.job.level + 2 >= |s.levels|, watermark, H);
    if s.job.level == 0 {
      TopAfter(s, above, H);
    } else {
      DeepAfter(s, above);
    }
  }
}
