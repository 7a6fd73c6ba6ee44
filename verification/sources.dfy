/** The places a key's versions can live, newest first, and the read that walks them
    (src/db.rs `get_with_seq`, src/version.rs `get_sstables_for_key`). */
module Sources {
  import opened ByteStrings
  import opened Records
  import opened Builder
  import opened Reader
  import opened Versions
  import Bloom

  type Source = set<Record>

  // ---------------------------------------------------------------- the source order

  /** Recovery replays log records that may already be in table files, so a newer source need
      not hold strictly newer versions. What holds is: a version in the older source that is not
      older than some version of its key in the newer one is in the newer one too. */
  ghost predicate Shadows(newer: Source, older: Source) {
    forall q, r :: q in newer && r in older && q.ik.userKey == r.ik.userKey && q.ik.seqno <= r.ik.seqno ==> r in newer
  }

  ghost predicate Ordered(ss: seq<Source>) {
    forall i, j :: 0 <= i < j < |ss| ==> Shadows(ss[i], ss[j])
  }

  function Union(ss: seq<Source>): Source {
    if ss == [] then {} else ss[0] + Union(ss[1..])
  }

  /** The newest visible version in the first source that has one. */
  ghost function FirstHit(ss: seq<Source>, k: bytes, maxSeq: nat): Option<Record> {
    if ss == [] then None
    else
      match Newest(ss[0], k, maxSeq)
      case Some(r) => Some(r)
      case None => FirstHit(ss[1..], k, maxSeq)
  }

  lemma {:induction false} UnionMembers(ss: seq<Source>, r: Record)
    ensures r in Union(ss) <==> exists i :: 0 <= i < |ss| && r in ss[i]
  {
    if ss != [] {
      UnionMembers(ss[1..], r);
      if r in Union(ss[1..]) {
        var i :| 0 <= i < |ss[1..]| && r in ss[1..][i];
        assert r in ss[i + 1];
      }
      if i :| 0 <= i < |ss| && r in ss[i] {
        if i > 0 { assert r in ss[1..][i - 1]; }
      }
    }
  }

  lemma {:induction false} UnionSplit(a: seq<Source>, b: seq<Source>)
    ensures Union(a + b) == Union(a) + Union(b)
  {
    if a == [] {
      assert a + b == b;
    } else {
      UnionSplit(a[1..], b);
      assert (a + b)[1..] == a[1..] + b;
    }
  }

  lemma {:induction false} FirstHitSplit(a: seq<Source>, b: seq<Source>, k: bytes, maxSeq: nat)
    ensures FirstHit(a + b, k, maxSeq) ==
            match FirstHit(a, k, maxSeq) case Some(r) => Some(r) case None => FirstHit(b, k, maxSeq)
  {
    if a == [] {
      assert a + b == b;
    } else {
      FirstHitSplit(a[1..], b, k, maxSeq);
      assert (a + b)[1..] == a[1..] + b;
    }
  }

  lemma OrderedTail(ss: seq<Source>)
    requires Ordered(ss) && ss != []
    ensures Ordered(ss[1..])
    ensures forall r :: r in Union(ss[1..]) ==> exists j :: 0 < j < |ss| && r in ss[j]
  {
    hide Shadows;
    forall r | r in Union(ss[1..]) ensures exists j :: 0 < j < |ss| && r in ss[j] {
      UnionMembers(ss[1..], r);
      var i :| 0 <= i < |ss[1..]| && r in ss[1..][i];
      assert r in ss[i + 1];
    }
  }

  /** Stopping at the first source that answers gives the newest version anywhere, for every
      read position, because of the source order. */
  lemma {:induction false} WalkIsNewest(ss: seq<Source>, k: bytes, maxSeq: nat)
    requires Ordered(ss) && OneWritePerSeq(Union(ss))
    ensures FirstHit(ss, k, maxSeq) == Newest(Union(ss), k, maxSeq)
  {
    if ss == [] {
      NewestNone(Union(ss), k, maxSeq);
    } else {
      OrderedTail(ss);
      var hit, rest := Newest(ss[0], k, maxSeq), Union(ss[1..]);
      if hit.Some? {
        FirstWins(ss, k, maxSeq, hit.value);
      } else {
        WalkIsNewest(ss[1..], k, maxSeq);
        var o := Newest(rest, k, maxSeq);
        if o.Some? {
          NewestIs(Union(ss), k, maxSeq, o.value);
        } else {
          NewestNone(Union(ss), k, maxSeq);
        }
      }
    }
  }

  lemma FirstWins(ss: seq<Source>, k: bytes, maxSeq: nat, hit: Record)
    requires ss != [] && Ordered(ss) && OneWritePerSeq(Union(ss)) && IsNewest(ss[0], k, maxSeq, hit)
    ensures Newest(Union(ss), k, maxSeq) == Some(hit)
  {
    OrderedTail(ss);
    forall q | q in Union(ss) && Visible(q, k, maxSeq) ensures q.ik.seqno <= hit.ik.seqno {
      if q !in ss[0] {
        UnionMembers(ss, q);
        var j :| 0 < j < |ss| && q in ss[j];
        assert Shadows(ss[0], ss[j]);
      }
    }
    NewestIs(Union(ss), k, maxSeq, hit);
  }

  // ---------------------------------------------------------------- levels as sources

  function LevelSet(ts: seq<Table>): Source {
    set t, r | t in ts && r in t.recs :: r
  }

  /** L0 files, newest (last) first, each a source of its own. */
  function L0Sources(ts: seq<Table>): seq<Source> {
    if ts == [] then [] else [Contents(ts[|ts| - 1].recs)] + L0Sources(ts[..|ts| - 1])
  }

  /** Each deeper level is one source. */
  function DeepSources(levels: Levels): (ss: seq<Source>)
    ensures |ss| == |levels|
  {
    if levels == [] then [] else [LevelSet(levels[0])] + DeepSources(levels[1..])
  }

  function TableSources(levels: Levels): seq<Source> {
    if levels == [] then [] else L0Sources(levels[0]) + DeepSources(levels[1..])
  }

  lemma {:induction false} DeepAt(levels: Levels, i: nat)
    requires i < |levels|
    ensures DeepSources(levels)[i] == LevelSet(levels[i])
  {
    if i > 0 {
      DeepAt(levels[1..], i - 1);
    }
  }

  lemma {:induction false} L0At(ts: seq<Table>, i: nat)
    requires i < |ts|
    ensures |L0Sources(ts)| == |ts| && L0Sources(ts)[i] == Contents(ts[|ts| - 1 - i].recs)
  {
    L0Length(ts);
    if i > 0 { L0At(ts[..|ts| - 1], i - 1); }
  }

  lemma {:induction false} L0Length(ts: seq<Table>)
    ensures |L0Sources(ts)| == |ts|
  {
    if ts != [] { L0Length(ts[..|ts| - 1]); }
  }

  lemma {:induction false} L0Union(ts: seq<Table>)
    ensures Union(L0Sources(ts)) == LevelSet(ts)
  {
    if ts != [] {
      var front, last := ts[..|ts| - 1], ts[|ts| - 1];
      L0Union(front);
      assert ([Contents(last.recs)] + L0Sources(front))[1..] == L0Sources(front);
      assert ts == front + [last];
      assert LevelSet(ts) == LevelSet(front) + Contents(last.recs);
    }
  }

  // ---------------------------------------------------------------- candidate tables

  predicate Spans(t: Table, k: bytes) {
    Leq(t.smallest, k) && Leq(k, t.largest)
  }

  predicate MayHold(fmt: Format, t: Table, k: bytes) {
    Spans(t, k) && Bloom.Contains(fmt.hash, FilterOf(fmt, t.recs), k)
  }

  function FindInLevel(ts: seq<Table>, k: bytes): Option<Table> {
    if ts == [] then None else if Spans(ts[0], k) then Some(ts[0]) else FindInLevel(ts[1..], k)
  }

  function L0Candidates(fmt: Format, ts: seq<Table>, k: bytes): seq<Table> {
    if ts == [] then []
    else (if MayHold(fmt, ts[|ts| - 1], k) then [ts[|ts| - 1]] else []) + L0Candidates(fmt, ts[..|ts| - 1], k)
  }

  function DeepCandidates(levels: Levels, k: bytes): seq<Table> {
    if levels == [] then []
    else (match FindInLevel(levels[0], k) case Some(t) => [t] case None => []) + DeepCandidates(levels[1..], k)
  }

  function Candidates(fmt: Format, levels: Levels, k: bytes): seq<Table> {
    if levels == [] then [] else L0Candidates(fmt, levels[0], k) + DeepCandidates(levels[1..], k)
  }

  /** The table is open. */
  ghost predicate IsOpen(fmt: Format, handles: map<nat, SsTable>, t: Table) {
    && t.num in handles && Holds(fmt, handles[t.num], t.recs)
    && handles[t.num].smallest == t.smallest && handles[t.num].largest == t.largest
  }

  /** `SsTable::may_contain` on the open table. */
  method Probe(hash: Bloom.Hash, handles: map<nat, SsTable>, t: Table, k: bytes, ghost fmt: Format) returns (yes: bool)
    requires IsOpen(fmt, handles, t) && hash == fmt.hash
    ensures yes == MayHold(fmt, t, k)
  {
    hide FitsTable, Sorted, ChunksOf, Index, TableBytes, FilterOf, Bloom.Contains;
    yes := MayContain(hash, handles[t.num], k, fmt, t.recs);
  }

  method GetSstablesForKey(levels: Levels, handles: map<nat, SsTable>, hash: Bloom.Hash, k: bytes, ghost fmt: Format)
    returns (out: seq<Table>)
    requires hash == fmt.hash
    requires levels != [] ==> forall t :: t in levels[0] ==> IsOpen(fmt, handles, t)
    ensures out == Candidates(fmt, levels, k)
  {
    hide MayHold, FindInLevel, IsOpen;
    out := [];
    if levels == [] { return; }
    var i := |levels[0]|;
    assert levels[0][..i] == levels[0];
    while i > 0
      invariant i <= |levels[0]|
      invariant L0Candidates(fmt, levels[0], k) == out + L0Candidates(fmt, levels[0][..i], k)
    {
      i := i - 1;
      assert levels[0][..i + 1][..i] == levels[0][..i];
      assert levels[0][i] in levels[0];
      var may := Probe(hash, handles, levels[0][i], k, fmt);
      if may { out := out + [levels[0][i]]; }
    }
    ghost var young := out;
    assert levels[0][..0] == [] && young + [] == young;
    assert levels[1..][0..] == levels[1..];
    for l := 1 to |levels|
      invariant young + DeepCandidates(levels[1..], k) == out + DeepCandidates(levels[l..], k)
    {
      assert levels[l..][1..] == levels[l + 1..];
      var t := FindInLevel(levels[l], k);
      if t.Some? { out := out + [t.value]; }
    }
    assert levels[|levels|..] == [] && out + [] == out;
  }

  function RunsOf(ts: seq<Table>): seq<Source> {
    if ts == [] then [] else [Contents(ts[0].recs)] + RunsOf(ts[1..])
  }

  lemma {:induction false} RunsSplit(a: seq<Table>, b: seq<Table>)
    ensures RunsOf(a + b) == RunsOf(a) + RunsOf(b)
  {
    if a == [] {
      assert a + b == b;
    } else {
      hide Contents;
      RunsSplit(a[1..], b);
      assert (a + b)[1..] == a[1..] + b;
    }
  }

  lemma HeldPasses(fmt: Format, files: Files, t: Table, r: Record)
    requires WellFormedTable(fmt, files, t) && r in t.recs
    ensures MayHold(fmt, t, r.ik.userKey)
  {
    RejectedKeys(fmt, t.recs, r.ik.userKey, r);
    LtOrder();
  }

  /** Tables that the range check or the bloom filter rejects would not have answered. */
  lemma {:induction false} L0Probe(fmt: Format, files: Files, ts: seq<Table>, k: bytes, maxSeq: nat)
    requires forall i :: 0 <= i < |ts| ==> WellFormedTable(fmt, files, ts[i])
    ensures FirstHit(RunsOf(L0Candidates(fmt, ts, k)), k, maxSeq) == FirstHit(L0Sources(ts), k, maxSeq)
  {
    if ts != [] {
      var front, t := ts[..|ts| - 1], ts[|ts| - 1];
      L0Probe(fmt, files, front, k, maxSeq);
      if MayHold(fmt, t, k) {
        FirstHitSplit([Contents(t.recs)], RunsOf(L0Candidates(fmt, front, k)), k, maxSeq);
        assert ([t] + L0Candidates(fmt, front, k))[1..] == L0Candidates(fmt, front, k);
      } else {
        forall r | r in Contents(t.recs) ensures !Visible(r, k, maxSeq) {
          if r.ik.userKey == k { HeldPasses(fmt, files, t, r); }
        }
        NewestNone(Contents(t.recs), k, maxSeq);
        assert [] + L0Candidates(fmt, front, k) == L0Candidates(fmt, front, k);
      }
      FirstHitSplit([Contents(t.recs)], L0Sources(front), k, maxSeq);
      assert [Contents(t.recs)][1..] == [];
    }
  }

  lemma SpansKey(fmt: Format, files: Files, t: Table, r: Record)
    requires WellFormedTable(fmt, files, t) && r in t.recs
    ensures Spans(t, r.ik.userKey)
  {
    RangeOf(fmt, files, t, r);
  }

  lemma OneSpans(a: Table, b: Table, k: bytes)
    requires RangeBelow(a, b)
    ensures !(Spans(a, k) && Spans(b, k))
  {
    if Spans(a, k) && Spans(b, k) {
      if k != a.largest { LtTrans(k, a.largest, b.smallest); }
      if k != b.smallest { LtAsym(k, b.smallest); }
      LtAsym(a.largest, b.smallest);
    }
  }

  /** In a level of disjoint ranges one table can hold `k`, and `find_in_level` finds it. */
  lemma {:induction false} FoundHolds(fmt: Format, files: Files, ts: seq<Table>, k: bytes, t: Table, r: Record)
    requires DisjointLevel(ts) && (forall i :: 0 <= i < |ts| ==> WellFormedTable(fmt, files, ts[i]))
    requires t in ts && r in t.recs && r.ik.userKey == k
    ensures FindInLevel(ts, k) == Some(t)
  {
    hide WellFormedTable, Spans, RangeBelow;
    var n :| 0 <= n < |ts| && ts[n] == t;
    SpansKey(fmt, files, ts[n], r);
    if n > 0 {
      OneSpans(ts[0], ts[n], k);
      assert ts[1..][n - 1] == t;
      FoundHolds(fmt, files, ts[1..], k, t, r);
    }
  }

  lemma {:induction false} FoundInLevel(ts: seq<Table>, k: bytes)
    ensures FindInLevel(ts, k).Some? ==> FindInLevel(ts, k).value in ts
  {
    if ts != [] { FoundInLevel(ts[1..], k); }
  }

  lemma LevelProbe(fmt: Format, files: Files, ts: seq<Table>, k: bytes, maxSeq: nat)
    requires DisjointLevel(ts) && (forall i :: 0 <= i < |ts| ==> WellFormedTable(fmt, files, ts[i]))
    requires OneWritePerSeq(LevelSet(ts))
    ensures Newest(LevelSet(ts), k, maxSeq) ==
            match FindInLevel(ts, k) case Some(t) => Newest(Contents(t.recs), k, maxSeq) case None => None
  {
    hide FindInLevel, WellFormedTable, DisjointLevel;
    FoundInLevel(ts, k);
    var found := FindInLevel(ts, k);
    forall r | r in LevelSet(ts) && r.ik.userKey == k ensures found.Some? && r in found.value.recs {
      var t :| t in ts && r in t.recs;
      FoundHolds(fmt, files, ts, k, t, r);
    }
    if found.Some? && Newest(Contents(found.value.recs), k, maxSeq).Some? {
      NewestIs(LevelSet(ts), k, maxSeq, Newest(Contents(found.value.recs), k, maxSeq).value);
    } else {
      NewestNone(LevelSet(ts), k, maxSeq);
    }
  }

  lemma {:induction false} DeepProbe(fmt: Format, files: Files, levels: Levels, k: bytes, maxSeq: nat)
    requires forall l, i :: 0 <= l < |levels| && 0 <= i < |levels[l]| ==> WellFormedTable(fmt, files, levels[l][i])
    requires forall l :: 0 <= l < |levels| ==> DisjointLevel(levels[l]) && OneWritePerSeq(LevelSet(levels[l]))
    ensures FirstHit(RunsOf(DeepCandidates(levels, k)), k, maxSeq) == FirstHit(DeepSources(levels), k, maxSeq)
  {
    if levels != [] {
      hide WellFormedTable, DisjointLevel, OneWritePerSeq, FindInLevel, LevelSet;
      LevelProbe(fmt, files, levels[0], k, maxSeq);
      DeepProbe(fmt, files, levels[1..], k, maxSeq);
      var found, more := FindInLevel(levels[0], k), DeepCandidates(levels[1..], k);
      if found.Some? {
        assert ([found.value] + more)[1..] == more;
      } else {
        assert [] + more == more;
      }
      assert ([LevelSet(levels[0])] + DeepSources(levels[1..]))[1..] == DeepSources(levels[1..]);
    }
  }

  /** Probing only the candidate tables, in order, answers as walking every table source. */
  lemma ProbeIsWalk(fmt: Format, files: Files, levels: Levels, k: bytes, maxSeq: nat)
    requires WellFormed(fmt, files, levels) && OneWritePerSeq(Union(TableSources(levels)))
    ensures FirstHit(RunsOf(Candidates(fmt, levels, k)), k, maxSeq) == FirstHit(TableSources(levels), k, maxSeq)
  {
    if levels != [] {
      var deep := levels[1..];
      forall l | 0 <= l < |deep| ensures DisjointLevel(deep[l]) && OneWritePerSeq(LevelSet(deep[l])) {
        assert OrderedLevel(l + 1, levels[l + 1]);
        DeepAt(deep, l);
        UnionSplit(L0Sources(levels[0]), DeepSources(deep));
        forall r | r in LevelSet(deep[l]) ensures r in Union(TableSources(levels)) {
          assert r in DeepSources(deep)[l];
          UnionMembers(DeepSources(deep), r);
        }
      }
      hide WellFormedTable, DisjointLevel, OneWritePerSeq, L0Candidates, DeepCandidates, L0Sources, DeepSources, RunsOf;
      L0Probe(fmt, files, levels[0], k, maxSeq);
      DeepProbe(fmt, files, deep, k, maxSeq);
      RunsSplit(L0Candidates(fmt, levels[0], k), DeepCandidates(deep, k));
      FirstHitSplit(RunsOf(L0Candidates(fmt, levels[0], k)), RunsOf(DeepCandidates(deep, k)), k, maxSeq);
      FirstHitSplit(L0Sources(levels[0]), DeepSources(deep), k, maxSeq);
    }
  }
}
