/** The levels of table files (src/version.rs). */
module Versions {
  import opened ByteStrings
  import opened Records
  import opened Builder
  import opened ManifestLog

  /** A live table: its metadata and the run of records its file holds. */
  datatype Table = Table(num: nat, smallest: bytes, largest: bytes, size: nat, recs: seq<Record>)

  type Levels = seq<seq<Table>>

  /** The table files in the directory, by number, as the runs they hold. */
  type Files = map<nat, seq<Record>>

  function SizeOf(fmt: Format, rs: seq<Record>): nat {
    |TableBytes(fmt, rs)|
  }

  function MetaOf(level: nat, t: Table): FileMeta {
    FileMeta(t.num, level, t.smallest, t.largest, t.size)
  }

  /** `SsTable::open` of a listed file: bounds from the manifest, size from the file. */
  function OpenTable(fmt: Format, files: Files, m: FileMeta): Table
    requires m.num in files
  {
    Table(m.num, m.smallest, m.largest, SizeOf(fmt, files[m.num]), files[m.num])
  }

  /** A listed file opens with the bounds it was listed with, and a table is listed with its own. */
  lemma ListedAs(fmt: Format, files: Files, level: nat, t: Table)
    ensures var m := MetaOf(level, t);
            && m.num == t.num && m.level == level && m.smallest == t.smallest && m.largest == t.largest && m.size == t.size
            && (t.num in files ==>
                  var u := OpenTable(fmt, files, m);
                  && u.num == t.num && u.smallest == t.smallest && u.largest == t.largest && u.recs == files[t.num]
                  && u.size == |TableBytes(fmt, files[t.num])|)
  {
    hide TableBytes;
  }

  // ---------------------------------------------------------------- from_metas

  /** L0 is ordered by file number, deeper levels by smallest key. */
  predicate TableLt(level: nat, a: Table, b: Table) {
    if level == 0 then a.num < b.num else Lt(a.smallest, b.smallest)
  }

  function InsertTable(level: nat, t: Table, ts: seq<Table>): seq<Table> {
    if ts == [] then [t]
    else if TableLt(level, t, ts[0]) then [t] + ts
    else [ts[0]] + InsertTable(level, t, ts[1..])
  }

  /** The stable sort of `sort_by` and `sort_by_key`. */
  function SortTables(level: nat, ts: seq<Table>): seq<Table> {
    if ts == [] then [] else InsertTable(level, ts[|ts| - 1], SortTables(level, ts[..|ts| - 1]))
  }

  /** The tables of one level, in the order of `metas`; a listed file that is missing is skipped. */
  function OpenedAt(fmt: Format, files: Files, metas: seq<FileMeta>, level: nat): seq<Table> {
    if metas == [] then []
    else
      var m := metas[|metas| - 1];
      OpenedAt(fmt, files, metas[..|metas| - 1], level)
      + (if m.num in files && m.level == level then [OpenTable(fmt, files, m)] else [])
  }

  function FromMetas(fmt: Format, files: Files, metas: seq<FileMeta>, maxLevels: nat): (v: Levels)
    ensures |v| == maxLevels
  {
    seq(maxLevels, l requires 0 <= l => SortTables(l, OpenedAt(fmt, files, metas, l)))
  }

  method BuildFromMetas(fmt: Format, files: Files, metas: seq<FileMeta>, maxLevels: nat) returns (levels: Levels)
    ensures levels == FromMetas(fmt, files, metas, maxLevels)
  {
    hide OpenTable;
    levels := seq(maxLevels, _ => []);
    for i := 0 to |metas|
      invariant |levels| == maxLevels
      invariant forall l :: 0 <= l < maxLevels ==> levels[l] == OpenedAt(fmt, files, metas[..i], l)
    {
      var m := metas[i];
      assert metas[..i + 1][..i] == metas[..i];
      if m.num in files && m.level < maxLevels {
        levels := levels[m.level := levels[m.level] + [OpenTable(fmt, files, m)]];
      }
    }
    assert metas[..|metas|] == metas;
    ghost var raw := levels;
    for l := 0 to maxLevels
      invariant |levels| == maxLevels
      invariant forall j :: 0 <= j < l ==> levels[j] == SortTables(j, raw[j])
      invariant forall j :: l <= j < maxLevels ==> levels[j] == raw[j]
    {
      levels := levels[l := SortTables(l, levels[l])];
    }
  }

  function CollectLevel(level: nat, ts: seq<Table>): seq<FileMeta> {
    if ts == [] then [] else CollectLevel(level, ts[..|ts| - 1]) + [MetaOf(level, ts[|ts| - 1])]
  }

  function CollectUpTo(levels: Levels, n: nat): seq<FileMeta>
    requires n <= |levels|
  {
    if n == 0 then [] else CollectUpTo(levels, n - 1) + CollectLevel(n - 1, levels[n - 1])
  }

  /** `collect_file_metas`: level by level, each in its order. */
  function CollectMetas(levels: Levels): seq<FileMeta> {
    CollectUpTo(levels, |levels|)
  }

  // ---------------------------------------------------------------- sorting

  ghost predicate DistinctNums(ms: seq<FileMeta>) {
    forall i, j :: 0 <= i < j < |ms| ==> ms[i].num != ms[j].num
  }

  ghost predicate DistinctTables(ts: seq<Table>) {
    forall i, j :: 0 <= i < j < |ts| ==> ts[i].num != ts[j].num
  }

  ghost predicate WeaklyOrdered(level: nat, ts: seq<Table>) {
    forall i, j :: 0 <= i < j < |ts| ==> !TableLt(level, ts[j], ts[i])
  }

  ghost predicate StrictlyOrdered(level: nat, ts: seq<Table>) {
    forall i, j :: 0 <= i < j < |ts| ==> TableLt(level, ts[i], ts[j])
  }

  lemma TableLtOrder(level: nat, a: Table, b: Table, c: Table)
    ensures !(TableLt(level, a, b) && TableLt(level, b, a))
    ensures TableLt(level, a, b) && !TableLt(level, c, b) ==> TableLt(level, a, c)
  {
    if level > 0 {
      if Lt(a.smallest, b.smallest) { LtAsym(a.smallest, b.smallest); }
      LtTotal(c.smallest, b.smallest);
      if Lt(a.smallest, b.smallest) && Lt(b.smallest, c.smallest) { LtTrans(a.smallest, b.smallest, c.smallest); }
    }
  }

  lemma {:induction false} InsertTableMembers(level: nat, t: Table, ts: seq<Table>, u: Table)
    ensures u in InsertTable(level, t, ts) <==> u == t || u in ts
  {
    if ts != [] {
      InsertTableMembers(level, t, ts[1..], u);
      assert ts == [ts[0]] + ts[1..];
    }
  }

  lemma {:induction false} InsertTableOrdered(level: nat, t: Table, ts: seq<Table>)
    requires WeaklyOrdered(level, ts)
    ensures WeaklyOrdered(level, InsertTable(level, t, ts))
  {
    if ts != [] {
      if TableLt(level, t, ts[0]) {
        forall u | u in ts ensures !TableLt(level, u, t) {
          var i :| 0 <= i < |ts| && ts[i] == u;
          TableLtOrder(level, t, ts[0], u);
          TableLtOrder(level, t, u, t);
        }
        hide TableLt;
      } else {
        InsertTableOrdered(level, t, ts[1..]);
        var tail := InsertTable(level, t, ts[1..]);
        forall u | u in tail ensures !TableLt(level, u, ts[0]) {
          InsertTableMembers(level, t, ts[1..], u);
        }
        hide TableLt;
      }
    }
  }

  lemma {:induction false} InsertTableDistinct(level: nat, t: Table, ts: seq<Table>)
    requires DistinctTables(ts) && forall u :: u in ts ==> u.num != t.num
    ensures DistinctTables(InsertTable(level, t, ts))
  {
    if ts != [] && !TableLt(level, t, ts[0]) {
      hide TableLt;
      InsertTableDistinct(level, t, ts[1..]);
      forall u | u in InsertTable(level, t, ts[1..]) ensures u.num != ts[0].num {
        InsertTableMembers(level, t, ts[1..], u);
      }
    }
  }

  lemma {:induction false} SortTablesMembers(level: nat, ts: seq<Table>, u: Table)
    ensures u in SortTables(level, ts) <==> u in ts
  {
    if ts != [] {
      var front, t := ts[..|ts| - 1], ts[|ts| - 1];
      SortTablesMembers(level, front, u);
      InsertTableMembers(level, t, SortTables(level, front), u);
      assert ts == front + [t];
    }
  }

  lemma {:induction false} SortTablesOrdered(level: nat, ts: seq<Table>)
    requires DistinctTables(ts)
    ensures WeaklyOrdered(level, SortTables(level, ts)) && DistinctTables(SortTables(level, ts))
  {
    if ts != [] {
      hide TableLt;
      var front, t := ts[..|ts| - 1], ts[|ts| - 1];
      SortTablesOrdered(level, front);
      InsertTableOrdered(level, t, SortTables(level, front));
      forall u | u in SortTables(level, front) ensures u.num != t.num { SortTablesMembers(level, front, u); }
      InsertTableDistinct(level, t, SortTables(level, front));
    }
  }

  lemma SomeTable(ts: seq<Table>)
    ensures ts == [] || exists t :: t in ts
  {
    if ts != [] { assert ts[0] in ts; }
  }

  /** A strictly ordered level is determined by its set of tables. */
  lemma {:induction false} OrderedIsCanonical(level: nat, a: seq<Table>, b: seq<Table>)
    requires StrictlyOrdered(level, a) && StrictlyOrdered(level, b)
    requires forall t :: t in a <==> t in b
    ensures a == b
    decreases |a|
  {
    SomeTable(a);
    SomeTable(b);
    if a != [] && b != [] {
      assert a[0] in b && b[0] in a;
      var i :| 0 <= i < |b| && b[i] == a[0];
      var j :| 0 <= j < |a| && a[j] == b[0];
      TableLtOrder(level, a[0], b[0], a[0]);
      hide TableLt;
      assert a[0] == b[0];
      forall t ensures t in a[1..] <==> t in b[1..] { TailMembers(level, a, t); TailMembers(level, b, t); }
      OrderedIsCanonical(level, a[1..], b[1..]);
      assert a == [a[0]] + a[1..] && b == [b[0]] + b[1..];
    }
  }

  lemma TailMembers(level: nat, a: seq<Table>, t: Table)
    requires StrictlyOrdered(level, a) && a != []
    ensures t in a[1..] <==> t in a && t != a[0]
  {
    TableLtOrder(level, t, t, t);
    hide TableLt;
    assert a == [a[0]] + a[1..];
  }

  // ---------------------------------------------------------------- what a version lists

  ghost predicate Listed(files: Files, metas: seq<FileMeta>, level: nat, m: FileMeta) {
    m in metas && m.num in files && m.level == level
  }

  lemma {:induction false} OpenedMembers(fmt: Format, files: Files, metas: seq<FileMeta>, level: nat, t: Table)
    ensures t in OpenedAt(fmt, files, metas, level)
       <==> exists m :: Listed(files, metas, level, m) && t == OpenTable(fmt, files, m)
  {
    if metas != [] {
      var front, last := metas[..|metas| - 1], metas[|metas| - 1];
      hide *;
      OpenedMembers(fmt, files, front, level, t);
      OpenedStep(fmt, files, metas, level);
      ListedStep(fmt, files, metas, level, t);
    }
  }

  /** A table is listed by all but the last entry, or by the last one. */
  lemma ListedStep(fmt: Format, files: Files, metas: seq<FileMeta>, level: nat, t: Table)
    requires metas != []
    ensures var front, last := metas[..|metas| - 1], metas[|metas| - 1];
            (exists m :: Listed(files, metas, level, m) && t == OpenTable(fmt, files, m)) <==>
            || (exists m :: Listed(files, front, level, m) && t == OpenTable(fmt, files, m))
            || (last.num in files && last.level == level && t == OpenTable(fmt, files, last))
  {
    hide OpenTable;
    var front, last := metas[..|metas| - 1], metas[|metas| - 1];
    forall m ensures Listed(files, metas, level, m) <==>
                     Listed(files, front, level, m) || (m == last && last.num in files && last.level == level) {
      assert metas == front + [last];
    }
  }

  lemma OpenedStep(fmt: Format, files: Files, metas: seq<FileMeta>, level: nat)
    requires metas != []
    ensures var m := metas[|metas| - 1];
            OpenedAt(fmt, files, metas, level)
            == OpenedAt(fmt, files, metas[..|metas| - 1], level)
               + (if m.num in files && m.level == level then [OpenTable(fmt, files, m)] else [])
  {
    hide OpenTable;
  }

  lemma NumListed(fmt: Format, files: Files, metas: seq<FileMeta>, level: nat, t: Table)
    requires t in OpenedAt(fmt, files, metas, level)
    ensures exists i :: 0 <= i < |metas| && metas[i].num == t.num
  {
    hide SizeOf, OpenedAt;
    OpenedMembers(fmt, files, metas, level, t);
    var m :| Listed(files, metas, level, m) && t == OpenTable(fmt, files, m);
    var i :| 0 <= i < |metas| && metas[i] == m;
  }

  lemma {:induction false} OpenedDistinct(fmt: Format, files: Files, metas: seq<FileMeta>, level: nat)
    requires DistinctNums(metas)
    ensures DistinctTables(OpenedAt(fmt, files, metas, level))
  {
    if metas != [] {
      hide SizeOf;
      var front, last := metas[..|metas| - 1], metas[|metas| - 1];
      OpenedDistinct(fmt, files, front, level);
      forall t | t in OpenedAt(fmt, files, front, level) ensures t.num != last.num {
        NumListed(fmt, files, front, level, t);
      }
    }
  }

  /** Which tables a level holds after `from_metas`, and in what order. */
  lemma FromMetasLevel(fmt: Format, files: Files, metas: seq<FileMeta>, maxLevels: nat, level: nat)
    requires DistinctNums(metas) && level < maxLevels
    ensures var ts := FromMetas(fmt, files, metas, maxLevels)[level];
            && WeaklyOrdered(level, ts) && DistinctTables(ts)
            && forall t :: t in ts <==> exists m :: Listed(files, metas, level, m) && t == OpenTable(fmt, files, m)
  {
    hide SortTables, OpenedAt, OpenTable;
    var raw := OpenedAt(fmt, files, metas, level);
    OpenedDistinct(fmt, files, metas, level);
    SortTablesOrdered(level, raw);
    forall t ensures t in SortTables(level, raw)
                <==> exists m :: Listed(files, metas, level, m) && t == OpenTable(fmt, files, m) {
      SortTablesMembers(level, raw, t);
      OpenedMembers(fmt, files, metas, level, t);
    }
  }

  lemma {:induction false} CollectLevelMembers(level: nat, ts: seq<Table>, m: FileMeta)
    ensures m in CollectLevel(level, ts) <==> exists t :: t in ts && m == MetaOf(level, t)
  {
    if ts != [] {
      var front, last := ts[..|ts| - 1], ts[|ts| - 1];
      CollectLevelMembers(level, front, m);
      assert ts == front + [last];
    }
  }

  ghost predicate HasMeta(levels: Levels, m: FileMeta) {
    m.level < |levels| && exists t :: t in levels[m.level] && m == MetaOf(m.level, t)
  }

  lemma {:induction false} CollectUpToMembers(levels: Levels, n: nat, m: FileMeta)
    requires n <= |levels|
    ensures m in CollectUpTo(levels, n) <==> m.level < n && HasMeta(levels, m)
  {
    if n > 0 {
      CollectUpToMembers(levels, n - 1, m);
      CollectLevelMembers(n - 1, levels[n - 1], m);
      if m in CollectLevel(n - 1, levels[n - 1]) {
        var t :| t in levels[n - 1] && m == MetaOf(n - 1, t);
      }
    }
  }

  lemma CollectMembers(levels: Levels, m: FileMeta)
    ensures m in CollectMetas(levels) <==> HasMeta(levels, m)
  {
    CollectUpToMembers(levels, |levels|, m);
  }

  // ---------------------------------------------------------------- well-formed levels

  ghost predicate WellFormedTable(fmt: Format, files: Files, t: Table) {
    && t.recs != [] && Sorted(t.recs)
    && t.smallest == t.recs[0].ik.userKey && t.largest == t.recs[|t.recs| - 1].ik.userKey
    && t.num in files && files[t.num] == t.recs
    && t.size == SizeOf(fmt, t.recs)
  }

  /** Key ranges of two tables do not meet, `a` lying below `b`. */
  predicate RangeBelow(a: Table, b: Table) {
    Lt(a.largest, b.smallest)
  }

  ghost predicate DisjointLevel(ts: seq<Table>) {
    forall i, j :: 0 <= i < j < |ts| ==> RangeBelow(ts[i], ts[j])
  }

  /** L0 in file order; deeper levels sorted with pairwise disjoint key ranges. */
  ghost predicate OrderedLevel(level: nat, ts: seq<Table>) {
    if level == 0 then StrictlyOrdered(0, ts) else DisjointLevel(ts)
  }

  ghost predicate WellFormed(fmt: Format, files: Files, levels: Levels) {
    && (forall l, i :: 0 <= l < |levels| && 0 <= i < |levels[l]| ==> WellFormedTable(fmt, files, levels[l][i]))
    && (forall l :: 0 <= l < |levels| ==> OrderedLevel(l, levels[l]))
  }

  lemma RangeOf(fmt: Format, files: Files, t: Table, r: Record)
    requires WellFormedTable(fmt, files, t) && r in t.recs
    ensures Leq(t.smallest, r.ik.userKey) && Leq(r.ik.userKey, t.largest) && Leq(t.smallest, t.largest)
  {
    var i :| 0 <= i < |t.recs| && t.recs[i] == r;
    SortedKeys(t.recs, 0, i);
    SortedKeys(t.recs, i, |t.recs| - 1);
    SortedKeys(t.recs, 0, |t.recs| - 1);
  }

  lemma SmallestFirst(fmt: Format, files: Files, a: Table, b: Table)
    requires WellFormedTable(fmt, files, a) && RangeBelow(a, b)
    ensures Lt(a.smallest, b.smallest)
  {
    RangeOf(fmt, files, a, a.recs[0]);
    if a.smallest != a.largest { LtTrans(a.smallest, a.largest, b.smallest); }
  }

  lemma OrderedLevelIsStrict(fmt: Format, files: Files, level: nat, ts: seq<Table>)
    requires OrderedLevel(level, ts) && forall i :: 0 <= i < |ts| ==> WellFormedTable(fmt, files, ts[i])
    ensures StrictlyOrdered(level, ts)
  {
    if level > 0 {
      hide WellFormedTable, Lt;
      forall i, j | 0 <= i < j < |ts| ensures TableLt(level, ts[i], ts[j]) { SmallestFirst(fmt, files, ts[i], ts[j]); }
    }
  }

  /** `files` lists exactly the tables of `levels`, each number once. */
  ghost predicate SameFiles(metas: seq<FileMeta>, levels: Levels) {
    DistinctNums(metas) && forall m :: m in metas <==> HasMeta(levels, m)
  }

  lemma DistinctSorted(level: nat, ts: seq<Table>)
    requires WeaklyOrdered(level, ts) && DistinctTables(ts)
    requires forall t, u :: t in ts && u in ts && t != u ==> TableLt(level, t, u) || TableLt(level, u, t)
    ensures StrictlyOrdered(level, ts)
  {
    hide TableLt;
    forall i, j | 0 <= i < j < |ts| ensures TableLt(level, ts[i], ts[j]) {
      assert ts[i] != ts[j] && ts[i] in ts && ts[j] in ts;
    }
  }

  lemma StrictPairs(level: nat, ts: seq<Table>, t: Table, u: Table)
    requires StrictlyOrdered(level, ts) && t in ts && u in ts && t != u
    ensures TableLt(level, t, u) || TableLt(level, u, t)
  {
    hide TableLt;
    var i :| 0 <= i < |ts| && ts[i] == t;
    var j :| 0 <= j < |ts| && ts[j] == u;
  }

  lemma ReopenedTable(fmt: Format, files: Files, levels: Levels, level: nat, t: Table)
    requires WellFormed(fmt, files, levels) && level < |levels| && t in levels[level]
    ensures t.num in files && OpenTable(fmt, files, MetaOf(level, t)) == t
  {
    hide SizeOf, OrderedLevel;
    var i :| 0 <= i < |levels[level]| && levels[level][i] == t;
    assert WellFormedTable(fmt, files, levels[level][i]);
  }

  lemma RebuiltMembers(fmt: Format, files: Files, metas: seq<FileMeta>, levels: Levels, level: nat, t: Table)
    requires WellFormed(fmt, files, levels) && SameFiles(metas, levels) && level < |levels|
    ensures t in FromMetas(fmt, files, metas, |levels|)[level] <==> t in levels[level]
  {
    hide WellFormed, FromMetas, OpenTable;
    FromMetasLevel(fmt, files, metas, |levels|, level);
    if t in levels[level] {
      ReopenedTable(fmt, files, levels, level, t);
      var m := MetaOf(level, t);
      assert HasMeta(levels, m) && m.num in files;
      assert Listed(files, metas, level, m);
    }
    if t in FromMetas(fmt, files, metas, |levels|)[level] {
      var m :| Listed(files, metas, level, m) && t == OpenTable(fmt, files, m);
      assert HasMeta(levels, m);
      var u :| u in levels[level] && m == MetaOf(level, u);
      ReopenedTable(fmt, files, levels, level, u);
    }
  }

  /** Any list of exactly the live files, in whatever order, rebuilds the very same levels:
      the order `from_metas` sorts into is the order the engine keeps. */
  lemma Rebuilt(fmt: Format, files: Files, metas: seq<FileMeta>, levels: Levels)
    requires WellFormed(fmt, files, levels) && SameFiles(metas, levels)
    ensures FromMetas(fmt, files, metas, |levels|) == levels
  {
    var v := FromMetas(fmt, files, metas, |levels|);
    forall l | 0 <= l < |levels| ensures v[l] == levels[l] {
      assert StrictlyOrdered(l, levels[l]) by { OrderedLevelIsStrict(fmt, files, l, levels[l]); }
      hide WellFormed, FromMetas, TableLt;
      FromMetasLevel(fmt, files, metas, |levels|, l);
      forall t ensures t in v[l] <==> t in levels[l] { RebuiltMembers(fmt, files, metas, levels, l, t); }
      forall t, u | t in v[l] && u in v[l] && t != u ensures TableLt(l, t, u) || TableLt(l, u, t) {
        StrictPairs(l, levels[l], t, u);
      }
      DistinctSorted(l, v[l]);
      OrderedIsCanonical(l, v[l], levels[l]);
    }
  }
}
