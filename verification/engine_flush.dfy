/** Flushing frozen memtables to L0, and starting the log afresh (src/db.rs 364-415). */
module EngineFlush {
  import opened ByteStrings
  import opened Records
  import opened Builder
  import opened WriteAheadLog
  import opened ManifestLog
  import opened Versions
  import opened Sources
  import opened Histories
  import opened EngineOptions
  import opened Compaction
  import opened CompactedLevels
  import opened Engine
  import opened EngineInvariant
  import opened Releveling
  import LevelFaith

  // ---------------------------------------------------------------- the version with a new L0 file

  function WithTop(levels: Levels, t: Table): Levels
    requires |levels| >= 1
  {
    levels[0 := levels[0] + [t]]
  }

  /** Only the files of live tables matter. */
  lemma SoundElsewhere(fmt: Format, files: Files, files': Files, levels: Levels, next: nat, next': nat)
    requires Sound(fmt, files, levels, next) && next <= next'
    requires forall l: nat, t :: l < |levels| && t in levels[l] && t.num in files ==> t.num in files' && files'[t.num] == files[t.num]
    ensures Sound(fmt, files', levels, next')
  {
    hide SizeOf, Sorted, OrderedLevel, UniqueNums;
    forall l, i | 0 <= l < |levels| && 0 <= i < |levels[l]| ensures WellFormedTable(fmt, files', levels[l][i]) {
      assert levels[l][i] in levels[l];
      assert WellFormedTable(fmt, files, levels[l][i]);
    }
  }

  lemma NewTableTrue(fmt: Format, files: Files, num: nat, run: seq<Record>)
    requires run != [] && Sorted(run)
    ensures WellFormedTable(fmt, files[num := run], NewTable(fmt, num, run))
    ensures NewTable(fmt, num, run).num == num && NewTable(fmt, num, run).recs == run
  {
  }

  lemma TopMembers(levels: Levels, t: Table, l: nat, u: Table)
    requires |levels| >= 1 && l < |levels|
    ensures u in WithTop(levels, t)[l] <==> u in levels[l] || (l == 0 && u == t)
  {
  }

  lemma TopOrdered(levels: Levels, t: Table)
    requires |levels| >= 1 && StrictlyOrdered(0, levels[0]) && forall u :: u in levels[0] ==> u.num < t.num
    ensures StrictlyOrdered(0, WithTop(levels, t)[0])
  {
  }

  lemma WithTopIs(levels: Levels, t: Table)
    requires |levels| >= 1
    ensures |WithTop(levels, t)| == |levels| && WithTop(levels, t)[0] == levels[0] + [t]
    ensures forall l :: 0 < l < |levels| ==> WithTop(levels, t)[l] == levels[l]
  {
  }

  lemma SoundFacts(fmt: Format, files: Files, levels: Levels, next: nat)
    requires Sound(fmt, files, levels, next)
    ensures forall l: nat :: l < |levels| ==> OrderedLevel(l, levels[l])
    ensures forall l: nat, t :: l < |levels| && t in levels[l] ==> WellFormedTable(fmt, files, t) && t.num < next && t.num in files
    ensures forall l: nat, k: nat, t, u :: l < |levels| && k < |levels| && t in levels[l] && u in levels[k] && t.num == u.num ==> l == k && t == u
  {
    forall l: nat, t | l < |levels| && t in levels[l]
      ensures WellFormedTable(fmt, files, t) { TableOf(fmt, files, levels, l, t); }
    hide OrderedLevel, Sorted, SizeOf;
  }

  lemma OrderedTop(ts: seq<Table>)
    ensures OrderedLevel(0, ts) == StrictlyOrdered(0, ts)
  {
  }

  /** A flush adds a new file at the end of L0, whose number is above all others. */
  lemma FlushSound(fmt: Format, files: Files, levels: Levels, next: nat, run: seq<Record>)
    requires Sound(fmt, files, levels, next) && |levels| >= 1 && run != [] && Sorted(run)
    ensures Sound(fmt, files[next := run], WithTop(levels, NewTable(fmt, next, run)), next + 1)
  {
    hide *;
    var t, files' := NewTable(fmt, next, run), files[next := run];
    NewTableTrue(fmt, files, next, run);
    SoundFacts(fmt, files, levels, next);
    SoundElsewhere(fmt, files, files', levels, next, next + 1);
    SoundWithTop(fmt, files', levels, next, t);
  }

  /** A table of the next number on top of L0. */
  lemma SoundWithTop(fmt: Format, files: Files, levels: Levels, next: nat, t: Table)
    requires Sound(fmt, files, levels, next + 1) && |levels| >= 1 && WellFormedTable(fmt, files, t) && t.num == next
    requires forall l: nat, u :: l < |levels| && u in levels[l] ==> u.num < next
    ensures Sound(fmt, files, WithTop(levels, t), next + 1)
  {
    hide *;
    var v := WithTop(levels, t);
    SoundFacts(fmt, files, levels, next + 1);
    WithTopIs(levels, t);
    OrderWithTop(levels, t);
    NumsWithTop(levels, t);
    forall l: nat, u: Table | l < |v| && u in v[l]
      ensures WellFormedTable(fmt, files, u) && u.num < next + 1 { TopMembers(levels, t, l, u); }
    SoundIs(fmt, files, v, next + 1);
  }

  lemma OrderWithTop(levels: Levels, t: Table)
    requires |levels| >= 1 && (forall l: nat :: l < |levels| ==> OrderedLevel(l, levels[l]))
    requires forall u :: u in levels[0] ==> u.num < t.num
    ensures forall l: nat :: l < |WithTop(levels, t)| ==> OrderedLevel(l, WithTop(levels, t)[l])
  {
    hide *;
    WithTopIs(levels, t);
    OrderedTop(levels[0]);
    OrderedTop(WithTop(levels, t)[0]);
    TopOrdered(levels, t);
  }

  lemma NumsWithTop(levels: Levels, t: Table)
    requires |levels| >= 1 && forall l: nat, u :: l < |levels| && u in levels[l] ==> u.num < t.num
    requires forall l: nat, k: nat, u, x :: l < |levels| && k < |levels| && u in levels[l] && x in levels[k] && u.num == x.num ==>
               l == k && u == x
    ensures var v := WithTop(levels, t);
            forall l: nat, k: nat, u, x :: l < |v| && k < |v| && u in v[l] && x in v[k] && u.num == x.num ==> l == k && u == x
  {
    hide *;
    var v := WithTop(levels, t);
    WithTopIs(levels, t);
    forall l: nat, k: nat, u: Table, x: Table | l < |v| && k < |v| && u in v[l] && x in v[k] && u.num == x.num
      ensures l == k && u == x {
      TopMembers(levels, t, l, u);
      TopMembers(levels, t, k, x);
    }
  }

  lemma MetaOfFields(l: nat, t: Table)
    ensures MetaOf(l, t).num == t.num && MetaOf(l, t).level == l
  {
  }

  lemma AddedDistinct(metas: seq<FileMeta>, m: FileMeta)
    requires DistinctNums(metas) && forall x :: x in metas ==> x.num != m.num
    ensures DistinctNums(metas + [m])
  {
  }

  lemma SameFilesParts(metas: seq<FileMeta>, levels: Levels)
    requires SameFiles(metas, levels)
    ensures DistinctNums(metas) && forall m :: m in metas <==> HasMeta(levels, m)
  {
  }

  /** The manifest entry a flush logs keeps the catalog in step with the version. */
  lemma FlushListed(fmt: Format, files: Files, levels: Levels, next: nat, metas: seq<FileMeta>, t: Table)
    requires Sound(fmt, files, levels, next) && |levels| >= 1 && SameFiles(metas, levels) && t.num == next
    ensures SameFiles(metas + [MetaOf(0, t)], WithTop(levels, t))
  {
    hide *;
    var v, all := WithTop(levels, t), metas + [MetaOf(0, t)];
    WithTopIs(levels, t);
    SoundFacts(fmt, files, levels, next);
    SameFilesParts(metas, levels);
    MetaOfFields(0, t);
    forall m | m in metas ensures m.num != next {
      HasMetaIs(levels, m);
      var u :| u in levels[m.level] && m == MetaOf(m.level, u);
      MetaOfFields(m.level, u);
    }
    AddedDistinct(metas, MetaOf(0, t));
    forall m ensures m in all <==> HasMeta(v, m) {
      HasMetaIs(levels, m);
      HasMetaIs(v, m);
      if m in all && m !in metas { assert m == MetaOf(0, t) && t in v[0]; }
      if HasMeta(v, m) {
        var u :| u in v[m.level] && m == MetaOf(m.level, u);
        TopMembers(levels, t, m.level, u);
      }
      if HasMeta(levels, m) {
        var u :| u in levels[m.level] && m == MetaOf(m.level, u);
        TopMembers(levels, t, m.level, u);
      }
    }
    SameFilesIs(all, v);
  }

  lemma FlushReplay(es: seq<Edit>, m: FileMeta, next: nat, lastSeq: nat)
    ensures Replay(es + [AddFile(m), SetNextFileNum(next), SetLastSeq(lastSeq)])
         == Catalog(Replay(es).files + [m], next, lastSeq)
  {
    var e1, e2, e3 := AddFile(m), SetNextFileNum(next), SetLastSeq(lastSeq);
    hide ApplyAll;
    ApplySplit(EmptyCatalog, es, [e1, e2, e3]);
    ApplySplit(Replay(es), [e1], [e2, e3]);
    ApplySplit(Applied(Replay(es), e1), [e2], [e3]);
    assert [e1] + [e2, e3] == [e1, e2, e3] && [e2] + [e3] == [e2, e3];
    ApplyOne(Replay(es), e1);
    ApplyOne(Applied(Replay(es), e1), e2);
    ApplyOne(Applied(Applied(Replay(es), e1), e2), e3);
  }

  // ---------------------------------------------------------------- the sources

  /** The oldest frozen memtable is the last of them. */
  lemma {:induction false} FrozenOldest(imms: seq<seq<Record>>)
    requires imms != []
    ensures Frozen(imms) == Frozen(imms[1..]) + [Contents(imms[0])]
  {
    hide Contents;
    var front := imms[..|imms| - 1];
    if |imms| > 1 {
      FrozenOldest(front);
      assert imms[1..][..|imms| - 2] == front[1..];
    }
  }

  lemma TopSource(levels: Levels, t: Table)
    requires |levels| >= 1
    ensures TableSources(WithTop(levels, t)) == [Contents(t.recs)] + TableSources(levels)
  {
    hide Contents, DeepSources;
    var ts := levels[0] + [t];
    assert ts[..|ts| - 1] == levels[0];
    assert WithTop(levels, t)[1..] == levels[1..];
  }

  /** A flush moves a source; the order in which reads meet the sources does not change. */
  lemma FlushSources(s: State, s': State, t: Table)
    requires s.imms != [] && |s.levels| >= 1 && t.recs == s.imms[0]
    requires s'.mem == s.mem && s'.imms == s.imms[1..] && s'.levels == WithTop(s.levels, t)
    ensures AllSources(s') == AllSources(s)
    ensures exists newer :: AllSources(s) == newer + TableSources(s'.levels)
  {
    hide *;
    var m, x, T := [Contents(s.mem)], [Contents(s.imms[0])], TableSources(s.levels);
    SourcesIs(s);
    SourcesIs(s');
    FrozenOldest(s.imms);
    TopSource(s.levels, t);
    var f := Frozen(s.imms[1..]);
    assert m + (f + x) + T == m + f + (x + T);
    assert AllSources(s) == (m + f) + TableSources(s'.levels);
  }

  // ---------------------------------------------------------------- the step

  lemma FlushFields(o: Options, s: State)
    requires s.imms != [] && |s.levels| >= 1 && s.imms[0] != []
    ensures var t, s' := NewTable(o.fmt, s.nextFile, s.imms[0]), FlushOldest(o, s);
            && s' == s.(imms := s.imms[1..], files := s.files[s.nextFile := s.imms[0]],
                        edits := s.edits + FlushEdits(s, t), levels := WithTop(s.levels, t), nextFile := s.nextFile + 1)
            && t.recs == s.imms[0] && t.num == s.nextFile
            && FlushEdits(s, t) == [AddFile(MetaOf(0, t)), SetNextFileNum(s.nextFile + 1), SetLastSeq(s.nextSeq)]
  {
    hide SizeOf;
  }

  lemma TailImms(imms: seq<seq<Record>>, m: seq<Record>)
    requires imms != [] && m in imms[1..]
    ensures m in imms
  {
    assert imms == [imms[0]] + imms[1..];
  }

  lemma FlushLive(o: Options, s: State, H: History)
    requires Live(o, s, H) && s.imms != [] && |s.levels| >= 1 && s.imms[0] != []
    ensures Live(o, FlushOldest(o, s), H)
  {
    hide *;
    var s', t := FlushOldest(o, s), NewTable(o.fmt, s.nextFile, s.imms[0]);
    LiveIs(o, s, H);
    FlushFields(o, s);
    assert s.imms[0] in s.imms;
    FlushSound(o.fmt, s.files, s.levels, s.nextFile, s.imms[0]);
    WithTopIs(s.levels, t);
    FlushSources(s, s', t);
    forall m | m in s'.imms ensures Sorted(m) { TailImms(s.imms, m); }
    LiveIs(o, s', H);
  }

  lemma FlushCatalogued(o: Options, s: State, H: History)
    requires Live(o, s, H) && Catalogued(s) && s.imms != [] && |s.levels| >= 1 && s.imms[0] != []
    ensures Catalogued(FlushOldest(o, s)) && Replay(FlushOldest(o, s).edits).lastSeq == FlushOldest(o, s).nextSeq
        == s.nextSeq
  {
    hide *;
    var s', t := FlushOldest(o, s), NewTable(o.fmt, s.nextFile, s.imms[0]);
    LiveIs(o, s, H);
    CataloguedIs(s);
    FlushFields(o, s);
    FlushReplay(s.edits, MetaOf(0, t), s.nextFile + 1, s.nextSeq);
    FlushListed(o.fmt, s.files, s.levels, s.nextFile, Replay(s.edits).files, t);
    AtLeastOneIs(s.nextFile);
    CataloguedIs(s');
  }

  lemma AtLeastOneIs(n: nat)
    ensures AtLeastOne(n + 1) == n + 1 && AtLeastOne(n) >= 1 && AtLeastOne(n) >= n
  {
  }

  lemma FlushLogged(o: Options, s: State, H: History)
    requires Live(o, s, H) && Catalogued(s) && Logged(s, H) && s.imms != [] && |s.levels| >= 1 && s.imms[0] != []
    ensures Logged(FlushOldest(o, s), H)
  {
    hide *;
    var s' := FlushOldest(o, s);
    LiveIs(o, s, H);
    LoggedIs(s, H);
    LoggedIs(s', H);
    FlushFields(o, s);
    FlushCatalogued(o, s, H);
    forall m | m in s'.imms ensures Contents(m) <= Contents(s'.log.recs) { TailImms(s.imms, m); }
    forall r | r in H[..Flushed(s', H)] ensures r.ik.seqno <= Replay(s'.edits).lastSeq { assert r in H; }
  }

  lemma OrderedSuffix(a: seq<Source>, b: seq<Source>)
    requires Ordered(a + b)
    ensures Ordered(b)
  {
    hide Ordered;
    var none: seq<Source> := [];
    assert none + a + b == a + b && none + b == b;
    OrderedDrop(none, a, b);
  }

  /** On disk the flushed memtable is a repeated part of the log. */
  lemma FlushDisk(o: Options, s: State, H: History, w: seq<Record>, H': History)
    requires Live(o, s, H) && s.imms != [] && |s.levels| >= 1 && s.imms[0] != []
    requires Contents(s.imms[0]) <= Contents(w) && Faithful([Contents(w)] + TableSources(s.levels), H')
    ensures Faithful([Contents(w)] + TableSources(FlushOldest(o, s).levels), H')
  {
    hide *;
    var s', t := FlushOldest(o, s), NewTable(o.fmt, s.nextFile, s.imms[0]);
    LiveIs(o, s, H);
    FlushFields(o, s);
    FlushSources(s, s', t);
    TopSource(s.levels, t);
    FaithfulIs(AllSources(s), H);
    var newer :| AllSources(s) == newer + TableSources(s'.levels);
    OrderedSuffix(newer, TableSources(s'.levels));
    var x, W, T := Contents(s.imms[0]), Contents(w), TableSources(s.levels);
    RepeatKeepsFaith(x, W, T, H');
    assert [W, x] + T == [W] + ([x] + T);
  }

  lemma FlushSafe(o: Options, s: State, H: History)
    requires Live(o, s, H) && Safe(o, s, H) && s.imms != [] && |s.levels| >= 1 && s.imms[0] != []
    ensures Safe(o, FlushOldest(o, s), H)
  {
    hide *;
    var s', d := FlushOldest(o, s), s.log.durable;
    SafeIs(o, s, H);
    FlushFields(o, s);
    assert s.imms[0] in s.imms;
    OnDiskIs(s, H, d);
    FlushDisk(o, s, H, s.log.recs[..d], Remaining(s, H, d));
    LoggedIs(s, H);
    LoggedIs(s', H);
    SafeIs(o, s', H);
    OnDiskIs(s', H, d);
    forall m | m in s'.imms ensures Contents(m) <= Contents(s.log.recs[..d]) { TailImms(s.imms, m); }
  }

  lemma FlushReopens(o: Options, s: State, H: History)
    requires Live(o, s, H) && Logged(s, H) && Reopens(s, H) && s.imms != [] && |s.levels| >= 1 && s.imms[0] != []
    ensures Reopens(FlushOldest(o, s), H)
  {
    hide *;
    LoggedIs(s, H);
    FlushFields(o, s);
    assert s.imms[0] in s.imms;
    ReopensIs(s, H);
    ReopensIs(FlushOldest(o, s), H);
    FlushDisk(o, s, H, s.log.recs, H);
  }

  /** Dropping an empty memtable. */
  lemma DropEmptyInv(o: Options, s: State, H: History)
    requires Inv(o, s, H) && s.imms != [] && s.imms[0] == []
    ensures Inv(o, s.(imms := s.imms[1..]), H)
  {
    hide *;
    var s' := s.(imms := s.imms[1..]);
    InvIs(o, s, H);
    LiveIs(o, s, H);
    SourcesIs(s);
    SourcesIs(s');
    FrozenOldest(s.imms);
    NothingSorted();
    var f, T := [Contents(s.mem)] + Frozen(s.imms[1..]), TableSources(s.levels);
    assert AllSources(s) == f + [{}] + T;
    assert AllSources(s') == f + T;
    LevelFaith.EmptiesDrop(f, [{}], T, H);
    forall m | m in s'.imms ensures m in s.imms { TailImms(s.imms, m); }
    LiveIs(o, s', H);
    CataloguedIs(s);
    CataloguedIs(s');
    LoggedIs(s, H);
    LoggedIs(s', H);
    ReopensIs(s, H);
    ReopensIs(s', H);
    SafeIs(o, s, H);
    SafeIs(o, s', H);
    if o.fsync != Never {
      OnDiskIs(s, H, s.log.durable);
      OnDiskIs(s', H, s.log.durable);
    }
    InvIs(o, s', H);
  }

  lemma FlushEmptyIs(o: Options, s: State)
    requires s.imms != [] && |s.levels| >= 1 && s.imms[0] == []
    ensures FlushOldest(o, s) == s.(imms := s.imms[1..])
  {
  }

  /** Flushing the oldest frozen memtable keeps the invariant; the manifest then knows the
      newest sequence number. */
  lemma FlushOldestInv(o: Options, s: State, H: History)
    requires Inv(o, s, H) && s.imms != [] && |s.levels| >= 1
    ensures Inv(o, FlushOldest(o, s), H)
    ensures s.imms[0] != [] ==> Replay(FlushOldest(o, s).edits).lastSeq == FlushOldest(o, s).nextSeq
  {
    hide *;
    if s.imms[0] == [] {
      FlushEmptyIs(o, s);
      DropEmptyInv(o, s, H);
    } else {
      InvIs(o, s, H);
      FlushLive(o, s, H);
      FlushCatalogued(o, s, H);
      FlushLogged(o, s, H);
      FlushReopens(o, s, H);
      if o.fsync != Never { FlushSafe(o, s, H); }
      InvIs(o, FlushOldest(o, s), H);
    }
  }

  // ---------------------------------------------------------------- a new log

  lemma EmptyLogKept(fsync: FsyncMode)
    ensures Log([], 0, 0, None).Kept(fsync)
  {
    var none: seq<Record> := [];
    assert none[0..] == [];
  }

  /** With nothing left in memory the tables alone answer for the whole history, so the log may go. */
  lemma RecreateLogInv(o: Options, s: State, H: History)
    requires Inv(o, s, H) && s.mem == [] && s.imms == [] && Replay(s.edits).lastSeq == s.nextSeq
    ensures Inv(o, RecreateLog(s), H)
  {
    hide *;
    var s' := s.(log := Log([], 0, 0, None));
    RecreateIs(s);
    InvIs(o, s, H);
    LiveButLog(o, s, H, s'.log);
    LiveIs(o, s, H);
    CataloguedIs(s);
    CataloguedIs(s');
    LoggedIs(s', H);
    NothingSorted();
    assert H[..|H|] == H;
    SourcesIs(s);
    NoFrozen();
    OnDiskIs(s', H, 0);
    var none: seq<Source> := [];
    assert [Contents(s.mem)] + none == [Contents(s.mem)];
    EmptyLogKept(o.fsync);
    ReopensIs(s', H);
    SafeIs(o, s', H);
    InvIs(o, s', H);
  }

  lemma RecreateIs(s: State)
    ensures RecreateLog(s) == s.(log := Log([], 0, 0, None))
  {
  }

  lemma NoFrozen()
    ensures Frozen([]) == []
  {
  }

  lemma FlushRoundIs(o: Options, s: State)
    requires s.imms != [] && |s.levels| >= 1
    ensures FlushOldest(o, s).imms == s.imms[1..] && |FlushOldest(o, s).levels| == |s.levels|
    ensures FlushRound(o, s).imms == s.imms[1..] && |FlushRound(o, s).levels| == |s.levels|
    ensures FlushRound(o, s) == if s.imms[0] != [] && FlushOldest(o, s).imms == [] && FlushOldest(o, s).mem == []
                                then RecreateLog(FlushOldest(o, s)) else FlushOldest(o, s)
  {
    hide NewTable, FlushEdits;
  }

  lemma FlushRoundInv(o: Options, s: State, H: History)
    requires Inv(o, s, H) && s.imms != [] && |s.levels| >= 1
    ensures Inv(o, FlushRound(o, s), H)
  {
    hide *;
    FlushRoundIs(o, s);
    FlushOldestInv(o, s, H);
    if s.imms[0] != [] && FlushOldest(o, s).imms == [] && FlushOldest(o, s).mem == [] {
      RecreateLogInv(o, FlushOldest(o, s), H);
    }
  }

  /** `flush_imms` keeps the invariant and leaves nothing frozen. */
  lemma {:induction false} FlushImmsInv(o: Options, s: State, H: History)
    requires Inv(o, s, H) && |s.levels| >= 1
    ensures Inv(o, FlushImms(o, s), H) && FlushImms(o, s).imms == [] && |FlushImms(o, s).levels| == |s.levels|
    decreases |s.imms|
  {
    FlushImmsIs(o, s);
    if s.imms != [] {
      hide *;
      FlushRoundIs(o, s);
      FlushRoundInv(o, s, H);
      FlushImmsInv(o, FlushRound(o, s), H);
    }
  }

  lemma FlushImmsIs(o: Options, s: State)
    requires |s.levels| >= 1
    ensures s.imms != [] ==> |FlushRound(o, s).levels| >= 1
    ensures FlushImms(o, s) == if s.imms == [] then s else FlushImms(o, FlushRound(o, s))
  {
    if s.imms != [] { FlushRoundIs(o, s); }
  }

  lemma FlushIs(o: Options, s: State)
    requires |s.levels| >= 1
    ensures Freeze(o, s).levels == s.levels
    ensures Flush(o, s) == FlushImms(o, if s.mem != [] then Freeze(o, s) else s)
  {
  }

  lemma FlushInv(o: Options, s: State, H: History)
    requires Inv(o, s, H) && |s.levels| >= 1
    ensures Inv(o, Flush(o, s), H) && Flush(o, s).imms == [] && |Flush(o, s).levels| == |s.levels|
  {
    hide *;
    FlushIs(o, s);
    FreezeInv(o, s, H);
    FlushImmsInv(o, if s.mem != [] then Freeze(o, s) else s, H);
  }

  // ---------------------------------------------------------------- when the log starts afresh

  lemma RoundLog(o: Options, s: State)
    requires s.imms != [] && |s.levels| >= 1
    ensures FlushRound(o, s).mem == s.mem
    ensures FlushRound(o, s).log == if s.imms[0] != [] && |s.imms| == 1 && s.mem == [] then Log([], 0, 0, None) else s.log
  {
    hide NewTable, FlushEdits;
  }

  /** `flush_imms` starts the log afresh exactly when memory is then empty and the newest frozen
      memtable was not. */
  lemma {:induction false} FlushImmsLog(o: Options, s: State)
    requires |s.levels| >= 1
    ensures FlushImms(o, s).log
         == if s.imms != [] && s.imms[|s.imms| - 1] != [] && s.mem == [] then Log([], 0, 0, None) else s.log
    decreases |s.imms|
  {
    hide *;
    FlushImmsIs(o, s);
    if s.imms != [] {
      FlushRoundIs(o, s);
      RoundLog(o, s);
      FlushImmsLog(o, FlushRound(o, s));
    }
  }

  /** After a `flush` with anything in memory the log is empty and no torn bytes are in it. */
  lemma FlushRestarts(o: Options, s: State)
    requires |s.levels| >= 1
    ensures Flush(o, s).log
         == if s.mem != [] || (s.imms != [] && s.imms[|s.imms| - 1] != []) then Log([], 0, 0, None) else s.log
  {
    hide *;
    FlushIs(o, s);
    FreezeFields(o, s);
    SyncFields(o, s);
    FlushImmsLog(o, if s.mem != [] then Freeze(o, s) else s);
  }

  // ---------------------------------------------------------------- which files a flush writes

  /** The memtables that hold anything, oldest first. */
  function Filled(imms: seq<seq<Record>>): (runs: seq<seq<Record>>)
    ensures forall i :: 0 <= i < |runs| ==> runs[i] != []
  {
    if imms == [] then [] else (if imms[0] == [] then [] else [imms[0]]) + Filled(imms[1..])
  }

  /** `after` is `levels` with one more table in L0 for each run, numbered from `next`. */
  ghost predicate OnTop(fmt: Format, levels: Levels, after: Levels, runs: seq<seq<Record>>, next: nat)
    requires forall i :: 0 <= i < |runs| ==> runs[i] != []
  {
    && |after| == |levels| >= 1 && after[1..] == levels[1..]
    && |after[0]| == |levels[0]| + |runs| && after[0][..|levels[0]|] == levels[0]
    && forall i :: 0 <= i < |runs| ==> after[0][|levels[0]| + i] == NewTable(fmt, next + i, runs[i])
  }

  lemma OneOnTop(fmt: Format, levels: Levels, after: Levels, runs: seq<seq<Record>>, next: nat, t: Table, run: seq<Record>)
    requires forall i :: 0 <= i < |runs| ==> runs[i] != []
    requires |levels| >= 1 && run != [] && t == NewTable(fmt, next, run)
    requires OnTop(fmt, levels[0 := levels[0] + [t]], after, runs, next + 1)
    ensures OnTop(fmt, levels, after, [run] + runs, next)
  {
    hide NewTable;
    var mid := levels[0 := levels[0] + [t]];
    assert mid[1..] == levels[1..];
    assert after[0][..|levels[0]|] == after[0][..|mid[0]|][..|levels[0]|];
    assert after[0][|levels[0]|] == after[0][..|mid[0]|][|levels[0]|];
    forall i | 0 < i <= |runs| ensures after[0][|levels[0]| + i] == NewTable(fmt, next + i, ([run] + runs)[i]) {
      assert after[0][|mid[0]| + (i - 1)] == NewTable(fmt, next + 1 + (i - 1), runs[i - 1]);
    }
  }

  lemma RoundEffects(o: Options, s: State)
    requires s.imms != [] && |s.levels| >= 1
    ensures var s', run := FlushRound(o, s), s.imms[0];
            && s'.mem == s.mem && s'.memBytes == s.memBytes && s'.imms == s.imms[1..] && s'.nextSeq == s.nextSeq
            && (run == [] ==> s'.levels == s.levels && s'.nextFile == s.nextFile)
            && (run != [] ==> s'.levels == s.levels[0 := s.levels[0] + [NewTable(o.fmt, s.nextFile, run)]]
                              && s'.nextFile == s.nextFile + 1)
  {
    hide NewTable, FlushEdits;
  }

  /** `flush_imms` writes each frozen memtable that holds anything to a file of its own, oldest first,
      on top of L0, and touches nothing else of the version. */
  lemma {:induction false} FlushImmsWrites(o: Options, s: State)
    requires |s.levels| >= 1
    ensures var s' := FlushImms(o, s);
            && s'.imms == [] && s'.mem == s.mem && s'.memBytes == s.memBytes && s'.nextSeq == s.nextSeq
            && s'.nextFile == s.nextFile + |Filled(s.imms)|
            && OnTop(o.fmt, s.levels, s'.levels, Filled(s.imms), s.nextFile)
    decreases |s.imms|
  {
    hide *;
    FlushImmsIs(o, s);
    FilledStep(s.imms);
    if s.imms != [] {
      RoundEffects(o, s);
      FlushImmsWrites(o, FlushRound(o, s));
      if s.imms[0] != [] {
        OneOnTop(o.fmt, s.levels, FlushImms(o, s).levels, Filled(s.imms[1..]), s.nextFile,
                 NewTable(o.fmt, s.nextFile, s.imms[0]), s.imms[0]);
      }
    } else {
      NothingOnTop(o.fmt, s.levels, s.nextFile);
    }
  }

  lemma FilledStep(imms: seq<seq<Record>>)
    ensures imms == [] ==> Filled(imms) == []
    ensures imms != [] ==> Filled(imms) == if imms[0] == [] then Filled(imms[1..]) else [imms[0]] + Filled(imms[1..])
  {
  }

  lemma NothingOnTop(fmt: Format, levels: Levels, next: nat)
    requires |levels| >= 1
    ensures OnTop(fmt, levels, levels, [], next)
  {
    hide NewTable;
  }

  /** `flush` leaves nothing in memory: the frozen memtables and then the current one are in files of
      L0, one for each that holds anything. */
  lemma FlushWrites(o: Options, s: State)
    requires |s.levels| >= 1
    ensures var s', runs := Flush(o, s), Filled(s.imms + [s.mem]);
            && s'.mem == [] && s'.imms == [] && s'.nextSeq == s.nextSeq && s'.nextFile == s.nextFile + |runs|
            && OnTop(o.fmt, s.levels, s'.levels, runs, s.nextFile)
  {
    hide FlushImms, Flush, OnTop, Freeze, Filled;
    FlushIs(o, s);
    FreezeFields(o, s);
    SyncFields(o, s);
    FilledOnTop(s.imms, s.mem);
    FlushImmsWrites(o, if s.mem != [] then Freeze(o, s) else s);
  }

  lemma {:induction false} FilledOnTop(imms: seq<seq<Record>>, m: seq<Record>)
    ensures m == [] ==> Filled(imms + [m]) == Filled(imms)
  {
    if imms == [] {
      assert (imms + [m])[1..] == [];
    } else {
      FilledOnTop(imms[1..], m);
      assert (imms + [m])[1..] == imms[1..] + [m];
    }
  }
}
