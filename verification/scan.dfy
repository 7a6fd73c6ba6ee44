/** Range scans against point reads (src/db.rs 208-250). */
module Scans {
  import opened ByteStrings
  import opened Keys
  import opened Records
  import opened Merge
  import opened MemTables
  import opened Versions
  import opened Sources
  import opened Histories
  import opened EngineOptions
  import opened Engine
  import opened EngineInvariant
  import Iter
  import CompactionSteps

  /** The streams a scan merges: memory newest first, then every table, level by level. */
  function MemStreams(imms: seq<seq<Record>>, bound: Bound, maxSeq: nat): seq<seq<Record>> {
    if imms == [] then []
    else [Ranged(imms[|imms| - 1], bound, maxSeq, None)] + MemStreams(imms[..|imms| - 1], bound, maxSeq)
  }

  lemma MemStreamsStep(imms: seq<seq<Record>>, m: seq<Record>, bound: Bound, maxSeq: nat)
    ensures MemStreams(imms + [m], bound, maxSeq) == [Ranged(m, bound, maxSeq, None)] + MemStreams(imms, bound, maxSeq)
  {
    hide Ranged;
    assert (imms + [m])[..|imms|] == imms;
  }

  lemma NoMemStreams(bound: Bound, maxSeq: nat)
    ensures MemStreams([], bound, maxSeq) == []
  {
  }

  function LevelStreams(ts: seq<Table>, bound: Bound, maxSeq: nat): seq<seq<Record>> {
    if ts == [] then [] else LevelStreams(ts[..|ts| - 1], bound, maxSeq) + [InRange(ts[|ts| - 1].recs, bound, maxSeq)]
  }

  function TableStreams(levels: Levels, bound: Bound, maxSeq: nat): seq<seq<Record>> {
    if levels == [] then [] else TableStreams(levels[..|levels| - 1], bound, maxSeq) + LevelStreams(levels[|levels| - 1], bound, maxSeq)
  }

  function ScanStreams(s: State, bound: Bound, maxSeq: nat): seq<seq<Record>> {
    [Ranged(s.mem, bound, maxSeq, None)] + MemStreams(s.imms, bound, maxSeq) + TableStreams(s.levels, bound, maxSeq)
  }

  // ---------------------------------------------------------------- what the streams hold

  /** A stream stands for a sorted run: a sorted part of the visible records past the bound, with
      at least the newest of each key. */
  ghost predicate StandsFor(stream: seq<Record>, run: seq<Record>, bound: Bound, maxSeq: nat) {
    && Sorted(stream)
    && (forall r :: r in stream ==> r in run && PastBound(bound, r.ik.userKey) && r.ik.seqno <= maxSeq)
    && (forall r :: r in run && PastBound(bound, r.ik.userKey) && r.ik.seqno <= maxSeq ==> Shown(stream, r))
  }

  ghost predicate Shown(stream: seq<Record>, r: Record) {
    exists q :: q in stream && q.ik.userKey == r.ik.userKey && r.ik.seqno <= q.ik.seqno
  }

  lemma TableStream(run: seq<Record>, bound: Bound, maxSeq: nat)
    requires Sorted(run)
    ensures StandsFor(InRange(run, bound, maxSeq), run, bound, maxSeq)
  {
    hide InRange, Sorted, PastBound;
    InRangeSorted(run, bound, maxSeq);
    forall r ensures r in InRange(run, bound, maxSeq)
        <==> r in run && PastBound(bound, r.ik.userKey) && r.ik.seqno <= maxSeq {
      InRangeMembers(run, bound, maxSeq, r);
    }
  }

  lemma SortedIsWeak(rs: seq<Record>)
    requires Sorted(rs)
    ensures WeaklySorted(rs)
  {
    forall i, j | 0 <= i < j < |rs| ensures !KeyLt(rs[j].ik, rs[i].ik) { CmpFlip(rs[i].ik, rs[j].ik); }
  }

  /** A memtable's range iterator shows each visible key's newest version. */
  lemma MemStream(run: seq<Record>, bound: Bound, maxSeq: nat)
    requires Sorted(run)
    ensures StandsFor(Ranged(run, bound, maxSeq, None), run, bound, maxSeq)
  {
    hide *;
    var all := InRange(run, bound, maxSeq);
    var kept := Ranged(run, bound, maxSeq, None);
    RangedIs(run, bound, maxSeq);
    InRangeSorted(run, bound, maxSeq);
    SortedIsWeak(all);
    FirstPerKeyIncreases(all, None);
    KeysIncreaseSorted(kept);
    forall r | r in kept ensures r in run && PastBound(bound, r.ik.userKey) && r.ik.seqno <= maxSeq {
      FirstPerKeyIsNewest(all, r);
      InRangeMembers(run, bound, maxSeq, r);
    }
    forall r | r in run && PastBound(bound, r.ik.userKey) && r.ik.seqno <= maxSeq ensures Shown(kept, r) {
      InRangeMembers(run, bound, maxSeq, r);
      FirstPerKeyCovers(all, None, r);
      var q :| q in kept && q.ik.userKey == r.ik.userKey && !KeyLt(r.ik, q.ik);
      NotLater(r, q);
      ShownBy(kept, r, q);
    }
    StandsIs(kept, run, bound, maxSeq);
  }

  lemma RangedIs(run: seq<Record>, bound: Bound, maxSeq: nat)
    ensures Ranged(run, bound, maxSeq, None) == FirstPerKey(InRange(run, bound, maxSeq), None)
  {
  }

  lemma ShownBy(stream: seq<Record>, r: Record, q: Record)
    requires q in stream && q.ik.userKey == r.ik.userKey && r.ik.seqno <= q.ik.seqno
    ensures Shown(stream, r)
  {
  }

  lemma StandsIs(stream: seq<Record>, run: seq<Record>, bound: Bound, maxSeq: nat)
    requires Sorted(stream)
    requires forall r :: r in stream ==> r in run && PastBound(bound, r.ik.userKey) && r.ik.seqno <= maxSeq
    requires forall r :: r in run && PastBound(bound, r.ik.userKey) && r.ik.seqno <= maxSeq ==> Shown(stream, r)
    ensures StandsFor(stream, run, bound, maxSeq)
  {
  }

  lemma NotLater(r: Record, q: Record)
    requires q.ik.userKey == r.ik.userKey && !KeyLt(r.ik, q.ik)
    ensures r.ik.seqno <= q.ik.seqno
  {
  }

  /** The streams and the runs they stand for, one for one. */
  ghost predicate AllStandFor(streams: seq<seq<Record>>, runs: seq<seq<Record>>, bound: Bound, maxSeq: nat) {
    |streams| == |runs| && forall i :: 0 <= i < |runs| ==> StandsFor(streams[i], runs[i], bound, maxSeq)
  }

  function ImmRuns(imms: seq<seq<Record>>): seq<seq<Record>> {
    if imms == [] then [] else [imms[|imms| - 1]] + ImmRuns(imms[..|imms| - 1])
  }

  function LevelRuns(ts: seq<Table>): seq<seq<Record>> {
    if ts == [] then [] else LevelRuns(ts[..|ts| - 1]) + [ts[|ts| - 1].recs]
  }

  function TableRuns(levels: Levels): seq<seq<Record>> {
    if levels == [] then [] else TableRuns(levels[..|levels| - 1]) + LevelRuns(levels[|levels| - 1])
  }

  function AllRuns(s: State): seq<seq<Record>> {
    [s.mem] + ImmRuns(s.imms) + TableRuns(s.levels)
  }

  lemma JoinStand(a: seq<seq<Record>>, ra: seq<seq<Record>>, b: seq<seq<Record>>, rb: seq<seq<Record>>, bound: Bound,
      maxSeq: nat)
    requires AllStandFor(a, ra, bound, maxSeq) && AllStandFor(b, rb, bound, maxSeq)
    ensures AllStandFor(a + b, ra + rb, bound, maxSeq)
  {
    hide StandsFor;
  }

  lemma {:induction false} ImmsStand(imms: seq<seq<Record>>, bound: Bound, maxSeq: nat)
    requires forall m :: m in imms ==> Sorted(m)
    ensures AllStandFor(MemStreams(imms, bound, maxSeq), ImmRuns(imms), bound, maxSeq)
  {
    if imms != [] {
      hide Sorted, StandsFor, Ranged;
      var front, m := imms[..|imms| - 1], imms[|imms| - 1];
      assert m in imms;
      MemStream(m, bound, maxSeq);
      ImmsStand(front, bound, maxSeq);
      JoinStand([Ranged(m, bound, maxSeq, None)], [m], MemStreams(front, bound, maxSeq), ImmRuns(front), bound, maxSeq);
    }
  }

  lemma {:induction false} LevelStands(ts: seq<Table>, bound: Bound, maxSeq: nat)
    requires forall t :: t in ts ==> Sorted(t.recs)
    ensures AllStandFor(LevelStreams(ts, bound, maxSeq), LevelRuns(ts), bound, maxSeq)
  {
    if ts != [] {
      hide Sorted, StandsFor, InRange;
      var front, t := ts[..|ts| - 1], ts[|ts| - 1];
      assert t in ts;
      TableStream(t.recs, bound, maxSeq);
      LevelStands(front, bound, maxSeq);
      JoinStand(LevelStreams(front, bound, maxSeq), LevelRuns(front), [InRange(t.recs, bound, maxSeq)], [t.recs],
          bound, maxSeq);
    }
  }

  lemma {:induction false} TablesStand(levels: Levels, bound: Bound, maxSeq: nat)
    requires forall l: nat, t: Table :: l < |levels| && t in levels[l] ==> Sorted(t.recs)
    ensures AllStandFor(TableStreams(levels, bound, maxSeq), TableRuns(levels), bound, maxSeq)
  {
    if levels != [] {
      hide Sorted, StandsFor, LevelStreams, LevelRuns;
      var front, ts := levels[..|levels| - 1], levels[|levels| - 1];
      LevelStands(ts, bound, maxSeq);
      TablesStand(front, bound, maxSeq);
      JoinStand(TableStreams(front, bound, maxSeq), TableRuns(front), LevelStreams(ts, bound, maxSeq), LevelRuns(ts),
          bound, maxSeq);
    }
  }

  lemma {:induction false} ImmRunMembers(imms: seq<seq<Record>>, r: Record)
    ensures InSome(ImmRuns(imms), r) <==> r in Union(Frozen(imms))
  {
    if imms != [] {
      hide InSome, Contents, Union;
      var front, m := imms[..|imms| - 1], imms[|imms| - 1];
      ImmRunMembers(front, r);
      InSomeSplit([m], ImmRuns(front), r);
      OneRun(m, r);
      UnionSplit([Contents(m)], Frozen(front));
      OneSource(Contents(m));
    }
  }

  lemma InSomeSplit(a: seq<seq<Record>>, b: seq<seq<Record>>, r: Record)
    ensures InSome(a + b, r) <==> InSome(a, r) || InSome(b, r)
  {
    var all := a + b;
    if i :| 0 <= i < |all| && r in all[i] {
      if i < |a| { assert r in a[i]; } else { assert r in b[i - |a|]; }
    }
    if i :| 0 <= i < |a| && r in a[i] { assert r in all[i]; }
    if i :| 0 <= i < |b| && r in b[i] { assert r in all[|a| + i]; }
  }

  lemma {:induction false} LevelRunMembers(ts: seq<Table>, r: Record)
    ensures InSome(LevelRuns(ts), r) <==> r in LevelSet(ts)
  {
    if ts != [] {
      var front, t := ts[..|ts| - 1], ts[|ts| - 1];
      LevelRunMembers(front, r);
      InSomeSplit(LevelRuns(front), [t.recs], r);
      assert ts == front + [t];
      assert InSome([t.recs], r) <==> r in t.recs by { if r in t.recs { assert r in [t.recs][0]; } }
    }
  }

  lemma {:induction false} TableRunMembers(levels: Levels, r: Record)
    ensures InSome(TableRuns(levels), r) <==> exists l :: 0 <= l < |levels| && r in LevelSet(levels[l])
  {
    if levels != [] {
      hide LevelSet, InSome, LevelRuns;
      var front, ts := levels[..|levels| - 1], levels[|levels| - 1];
      TableRunMembers(front, r);
      LevelRunMembers(ts, r);
      InSomeSplit(TableRuns(front), LevelRuns(ts), r);
    } else {
      hide LevelSet;
    }
  }

  lemma TableSourceMembers(levels: Levels, r: Record)
    ensures r in Union(TableSources(levels)) <==> exists l :: 0 <= l < |levels| && r in LevelSet(levels[l])
  {
    hide LevelSet;
    if levels != [] {
      hide L0Sources, DeepSources;
      UnionSplit(L0Sources(levels[0]), DeepSources(levels[1..]));
      L0Union(levels[0]);
      UnionMembers(DeepSources(levels[1..]), r);
      forall i | 0 <= i < |levels[1..]|
        ensures DeepSources(levels[1..])[i] == LevelSet(levels[i + 1]) { DeepAt(levels[1..], i); }
      if l :| 0 <= l < |levels| && r in LevelSet(levels[l]) {
        if l > 0 { assert r in DeepSources(levels[1..])[l - 1]; }
      }
    }
  }

  /** The runs hold what the sources hold. */
  lemma RunMembers(s: State, r: Record)
    ensures InSome(AllRuns(s), r) <==> r in Union(AllSources(s))
  {
    hide *;
    SourcesIs(s);
    AllRunsIs(s);
    UnionSplit([Contents(s.mem)] + Frozen(s.imms), TableSources(s.levels));
    UnionSplit([Contents(s.mem)], Frozen(s.imms));
    OneSource(Contents(s.mem));
    InSomeSplit([s.mem] + ImmRuns(s.imms), TableRuns(s.levels), r);
    InSomeSplit([s.mem], ImmRuns(s.imms), r);
    OneRun(s.mem, r);
    ImmRunMembers(s.imms, r);
    TableRunMembers(s.levels, r);
    TableSourceMembers(s.levels, r);
  }

  lemma AllRunsIs(s: State)
    ensures AllRuns(s) == [s.mem] + ImmRuns(s.imms) + TableRuns(s.levels)
  {
  }

  lemma OneSource(x: Source)
    ensures Union([x]) == x
  {
    assert [x][1..] == [];
  }

  lemma OneRun(rs: seq<Record>, r: Record)
    ensures InSome([rs], r) <==> r in Contents(rs)
  {
    if r in rs { assert r in [rs][0]; }
  }

  lemma StreamsStand(o: Options, s: State, H: History, bound: Bound, maxSeq: nat)
    requires Inv(o, s, H)
    ensures AllStandFor(ScanStreams(s, bound, maxSeq), AllRuns(s), bound, maxSeq)
  {
    hide *;
    InvIs(o, s, H);
    LiveIs(o, s, H);
    AllRunsIs(s);
    ScanStreamsIs(s, bound, maxSeq);
    MemStream(s.mem, bound, maxSeq);
    OneStands(Ranged(s.mem, bound, maxSeq, None), s.mem, bound, maxSeq);
    ImmsStand(s.imms, bound, maxSeq);
    forall l: nat, t: Table | l < |s.levels| && t in s.levels[l] ensures Sorted(t.recs) { LiveSorted(o, s, H, l, t); }
    TablesStand(s.levels, bound, maxSeq);
    var a, b := [Ranged(s.mem, bound, maxSeq, None)], MemStreams(s.imms, bound, maxSeq);
    JoinStand(a, [s.mem], b, ImmRuns(s.imms), bound, maxSeq);
    JoinStand(a + b, [s.mem] + ImmRuns(s.imms), TableStreams(s.levels, bound, maxSeq), TableRuns(s.levels), bound,
        maxSeq);
  }

  lemma OneStands(stream: seq<Record>, run: seq<Record>, bound: Bound, maxSeq: nat)
    requires StandsFor(stream, run, bound, maxSeq)
    ensures AllStandFor([stream], [run], bound, maxSeq)
  {
  }

  lemma ScanStreamsIs(s: State, bound: Bound, maxSeq: nat)
    ensures ScanStreams(s, bound, maxSeq)
         == [Ranged(s.mem, bound, maxSeq, None)] + MemStreams(s.imms, bound, maxSeq)
             + TableStreams(s.levels, bound, maxSeq)
  {
  }

  lemma LiveSorted(o: Options, s: State, H: History, l: nat, t: Table)
    requires Live(o, s, H) && l < |s.levels| && t in s.levels[l]
    ensures Sorted(t.recs)
  {
    hide *;
    LiveIs(o, s, H);
    CompactionSteps.SoundParts(o.fmt, s.files, s.levels, s.nextFile);
    TableTrue(o, s, l, t);
  }

  lemma TableTrue(o: Options, s: State, l: nat, t: Table)
    requires WellFormed(o.fmt, s.files, s.levels) && l < |s.levels| && t in s.levels[l]
    ensures Sorted(t.recs)
  {
    hide OrderedLevel, SizeOf, Sorted;
    var i :| 0 <= i < |s.levels[l]| && s.levels[l][i] == t;
    assert WellFormedTable(o.fmt, s.files, s.levels[l][i]);
  }

  // ---------------------------------------------------------------- what a scan returns

  /** The records a scan is about. */
  ghost function Past(S: Source, bound: Bound): Source {
    set r | r in S && PastBound(bound, r.ik.userKey)
  }

  lemma PastNewest(S: Source, bound: Bound, k: bytes, maxSeq: nat)
    requires OneWritePerSeq(S)
    ensures OneWritePerSeq(Past(S, bound))
    ensures Newest(Past(S, bound), k, maxSeq) == if PastBound(bound, k) then Newest(S, k, maxSeq) else None
  {
    hide PastBound;
    var P, n := Past(S, bound), Newest(S, k, maxSeq);
    if PastBound(bound, k) && n.Some? { NewestIs(P, k, maxSeq, n.value); } else { NewestNone(P, k, maxSeq); }
  }

  /** The streams as the merge sees them, each filtered once more by sequence number. */
  ghost predicate Filtered(pending: seq<seq<Record>>, streams: seq<seq<Record>>, maxSeq: nat) {
    |pending| == |streams| && forall i :: 0 <= i < |streams| ==> pending[i] == VisibleOnly(streams[i], maxSeq)
  }

  lemma MergeInputs(streams: seq<seq<Record>>, runs: seq<seq<Record>>, pending: seq<seq<Record>>, S: Source,
      bound: Bound, maxSeq: nat)
    requires AllStandFor(streams, runs, bound, maxSeq) && Filtered(pending, streams, maxSeq)
    requires forall r :: InSome(runs, r) <==> r in S
    ensures AllSorted(pending) && Iter.HoldsAll(pending, Past(S, bound), maxSeq)
  {
    hide PastBound, Sorted, VisibleOnly;
    forall i | 0 <= i < |pending| ensures Sorted(pending[i]) {
      assert StandsFor(streams[i], runs[i], bound, maxSeq);
      VisibleOnlySorted(streams[i], maxSeq);
    }
    forall r | InSome(pending, r) ensures r in Past(S, bound) && r.ik.seqno <= maxSeq {
      var i :| 0 <= i < |pending| && r in pending[i];
      assert StandsFor(streams[i], runs[i], bound, maxSeq);
      assert r in runs[i];
    }
    forall r | r in Past(S, bound) && r.ik.seqno <= maxSeq
      ensures Iter.Represented(pending, Past(S, bound), maxSeq, r) {
      IsRepresented(streams, runs, pending, S, bound, maxSeq, r);
    }
  }

  lemma IsRepresented(streams: seq<seq<Record>>, runs: seq<seq<Record>>, pending: seq<seq<Record>>, S: Source,
      bound: Bound, maxSeq: nat, r: Record)
    requires AllStandFor(streams, runs, bound, maxSeq) && Filtered(pending, streams, maxSeq)
    requires forall q :: InSome(runs, q) <==> q in S
    requires r in Past(S, bound) && r.ik.seqno <= maxSeq
    ensures Iter.Represented(pending, Past(S, bound), maxSeq, r)
  {
    hide PastBound, Sorted, VisibleOnly;
    assert InSome(runs, r);
    var i :| 0 <= i < |runs| && r in runs[i];
    assert StandsFor(streams[i], runs[i], bound, maxSeq);
    assert Shown(streams[i], r);
    var q :| q in streams[i] && q.ik.userKey == r.ik.userKey && r.ik.seqno <= q.ik.seqno;
    assert q in pending[i] && q in runs[i];
    assert InSome(pending, q) && InSome(runs, q);
  }

  /** A scan at any read position returns, in strictly increasing key order, exactly the pairs
      past the bound that point reads at that position return. */
  lemma ScanAgreesWithGet(o: Options, s: State, H: History, bound: Bound, maxSeq: nat, pending: seq<seq<Record>>)
    requires Inv(o, s, H) && Filtered(pending, ScanStreams(s, bound, maxSeq), maxSeq)
    ensures var items := Iter.Yields(MergeAll(pending), None, true);
            && Iter.ItemKeysIncrease(items)
            && forall k, v :: (k, Some(v)) in items <==>
                              PastBound(bound, k) && ValueOf(FirstHit(AllSources(s), k, maxSeq)) == Some(v)
    ensures forall it :: it in Iter.Yields(MergeAll(pending), None, true) ==> it.1.Some?
  {
    hide *;
    var S := Union(AllSources(s));
    var items := Iter.Yields(MergeAll(pending), None, true);
    InvIs(o, s, H);
    LiveIs(o, s, H);
    FaithfulIs(AllSources(s), H);
    IncreasingUnique(H);
    SubsetUnique(S, Contents(H));
    StreamsStand(o, s, H, bound, maxSeq);
    forall r ensures InSome(AllRuns(s), r) <==> r in S { RunMembers(s, r); }
    MergeInputs(ScanStreams(s, bound, maxSeq), AllRuns(s), pending, S, bound, maxSeq);
    PastNewest(S, bound, [], maxSeq);
    Iter.MergeYieldsReads(pending, Past(S, bound), maxSeq);
    forall k, v ensures (k, Some(v)) in items <==> PastBound(bound, k) && ValueOf(FirstHit(AllSources(s), k, maxSeq)) == Some(v) {
      WalkIsNewest(AllSources(s), k, maxSeq);
      PastNewest(S, bound, k, maxSeq);
      NoValue();
      var it: Iter.Item := (k, Some(v));
      assert it in items <==> it.1.Some? && ValueOf(Newest(Past(S, bound), it.0, maxSeq)) == it.1;
    }
  }

  lemma NoValue()
    ensures ValueOf(None) == None
  {
  }
}
