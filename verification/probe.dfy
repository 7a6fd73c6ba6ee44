/** A point read level by level: what the candidate tables of one level answer, and what is left
    to the levels below (src/version.rs 64-91). */
module Probes {
  import opened ByteStrings
  import opened Records
  import opened Builder
  import opened Versions
  import opened Sources
  import Bloom
  import Reader

  /** The candidates of one level. */
  function LevelCandidates(fmt: Format, l: nat, ts: seq<Table>, k: bytes): seq<Table> {
    if l == 0 then L0Candidates(fmt, ts, k) else match FindInLevel(ts, k) case Some(t) => [t] case None => []
  }

  function CandidatesFrom(fmt: Format, levels: Levels, l: nat, k: bytes): seq<Table>
    requires l <= |levels|
    decreases |levels| - l
  {
    if l == |levels| then [] else LevelCandidates(fmt, l, levels[l], k) + CandidatesFrom(fmt, levels, l + 1, k)
  }

  /** What the tables of one level answer. */
  ghost function ReadLevel(fmt: Format, l: nat, ts: seq<Table>, k: bytes, maxSeq: nat): Option<Record> {
    FirstHit(RunsOf(LevelCandidates(fmt, l, ts, k)), k, maxSeq)
  }

  /** What the levels from `l` on answer. */
  ghost function ReadFrom(fmt: Format, levels: Levels, l: nat, k: bytes, maxSeq: nat): Option<Record>
    requires l <= |levels|
  {
    FirstHit(RunsOf(CandidatesFrom(fmt, levels, l, k)), k, maxSeq)
  }

  lemma {:induction false} DeepFrom(fmt: Format, levels: Levels, l: nat, k: bytes)
    requires 1 <= l <= |levels|
    ensures CandidatesFrom(fmt, levels, l, k) == DeepCandidates(levels[l..], k)
    decreases |levels| - l
  {
    if l < |levels| {
      DeepFrom(fmt, levels, l + 1, k);
      assert levels[l..][1..] == levels[l + 1..];
    }
  }

  lemma FromTop(fmt: Format, levels: Levels, k: bytes)
    ensures Candidates(fmt, levels, k) == CandidatesFrom(fmt, levels, 0, k)
  {
    if levels != [] { DeepFrom(fmt, levels, 1, k); }
  }

  lemma ReadStep(fmt: Format, levels: Levels, l: nat, k: bytes, maxSeq: nat)
    requires l < |levels|
    ensures ReadFrom(fmt, levels, l, k, maxSeq) ==
            match ReadLevel(fmt, l, levels[l], k, maxSeq)
            case Some(r) => Some(r)
            case None => ReadFrom(fmt, levels, l + 1, k, maxSeq)
  {
    var a, b := LevelCandidates(fmt, l, levels[l], k), CandidatesFrom(fmt, levels, l + 1, k);
    RunsSplit(a, b);
    FirstHitSplit(RunsOf(a), RunsOf(b), k, maxSeq);
    hide LevelCandidates, FirstHit, RunsOf;
  }

  lemma ReadEnd(fmt: Format, levels: Levels, k: bytes, maxSeq: nat)
    ensures ReadFrom(fmt, levels, |levels|, k, maxSeq) == None
  {
  }

  /** Levels that agree from `l` on answer alike. */
  lemma {:induction false} SameBelow(fmt: Format, a: Levels, b: Levels, l: nat, k: bytes, maxSeq: nat)
    requires |a| == |b| && l <= |a| && forall i :: l <= i < |a| ==> a[i] == b[i]
    ensures ReadFrom(fmt, a, l, k, maxSeq) == ReadFrom(fmt, b, l, k, maxSeq)
    decreases |a| - l
  {
    hide *;
    if l < |a| {
      ReadStep(fmt, a, l, k, maxSeq);
      ReadStep(fmt, b, l, k, maxSeq);
      SameBelow(fmt, a, b, l + 1, k, maxSeq);
    } else {
      ReadEnd(fmt, a, k, maxSeq);
      ReadEnd(fmt, b, k, maxSeq);
    }
  }

  /** Where levels agree down to `l`, either something above answers both, or neither and the rest
      decides. */
  lemma {:induction false} SameAbove(fmt: Format, a: Levels, b: Levels, j: nat, l: nat, k: bytes, maxSeq: nat)
    requires |a| == |b| && j <= l <= |a| && forall i :: j <= i < l ==> a[i] == b[i]
    ensures || ReadFrom(fmt, a, j, k, maxSeq) == ReadFrom(fmt, b, j, k, maxSeq)
            || (ReadFrom(fmt, a, j, k, maxSeq) == ReadFrom(fmt, a, l, k, maxSeq)
                && ReadFrom(fmt, b, j, k, maxSeq) == ReadFrom(fmt, b, l, k, maxSeq)
                && forall i: nat :: j <= i < l ==> ReadLevel(fmt, i, a[i], k, maxSeq) == None)
    decreases l - j
  {
    hide *;
    if j < l {
      ReadStep(fmt, a, j, k, maxSeq);
      ReadStep(fmt, b, j, k, maxSeq);
      SameAbove(fmt, a, b, j + 1, l, k, maxSeq);
    }
  }

  // ---------------------------------------------------------------- what a level answers

  lemma {:induction false} NoneVisible(ss: seq<Source>, k: bytes, maxSeq: nat)
    ensures FirstHit(ss, k, maxSeq) == None <==> forall r :: r in Union(ss) ==> !Visible(r, k, maxSeq)
  {
    if ss != [] {
      NoneVisible(ss[1..], k, maxSeq);
      hide Visible;
      if FirstHit(ss, k, maxSeq).None? { NewestNone(ss[0], k, maxSeq); }
      if forall r :: r in Union(ss) ==> !Visible(r, k, maxSeq) { NewestNone(ss[0], k, maxSeq); }
    }
  }

  ghost predicate LevelTrue(fmt: Format, files: Files, l: nat, ts: seq<Table>) {
    && OrderedLevel(l, ts) && OneWritePerSeq(LevelSet(ts))
    && forall i :: 0 <= i < |ts| ==> WellFormedTable(fmt, files, ts[i])
  }

  lemma ReadTop(fmt: Format, files: Files, ts: seq<Table>, k: bytes, maxSeq: nat)
    requires LevelTrue(fmt, files, 0, ts)
    ensures ReadLevel(fmt, 0, ts, k, maxSeq) == FirstHit(L0Sources(ts), k, maxSeq)
  {
    hide WellFormedTable, OneWritePerSeq, OrderedLevel, L0Candidates, FirstHit;
    L0Probe(fmt, files, ts, k, maxSeq);
  }

  lemma ReadDeep(fmt: Format, files: Files, l: nat, ts: seq<Table>, k: bytes, maxSeq: nat)
    requires LevelTrue(fmt, files, l, ts) && l > 0
    ensures ReadLevel(fmt, l, ts, k, maxSeq) == Newest(LevelSet(ts), k, maxSeq)
  {
    hide WellFormedTable, OneWritePerSeq, DisjointLevel, FindInLevel, LevelSet;
    LevelProbe(fmt, files, ts, k, maxSeq);
    ReadFound(fmt, l, ts, k, maxSeq);
  }

  /** Below L0 the answer of a level is that of the one table found. */
  lemma ReadFound(fmt: Format, l: nat, ts: seq<Table>, k: bytes, maxSeq: nat)
    requires l > 0
    ensures ReadLevel(fmt, l, ts, k, maxSeq) ==
            match FindInLevel(ts, k) case Some(t) => Newest(Contents(t.recs), k, maxSeq) case None => None
  {
    hide FindInLevel, Contents;
    var f := FindInLevel(ts, k);
    if f.Some? {
      assert [f.value][1..] == [];
      assert RunsOf([f.value]) == [Contents(f.value.recs)];
      OneHit(Contents(f.value.recs), k, maxSeq);
    }
  }

  lemma OneHit(S: Source, k: bytes, maxSeq: nat)
    ensures FirstHit([S], k, maxSeq) == Newest(S, k, maxSeq)
  {
    assert [S][1..] == [];
  }

  /** A level does not answer exactly when it holds no visible version. */
  lemma LevelSilent(fmt: Format, files: Files, l: nat, ts: seq<Table>, k: bytes, maxSeq: nat)
    requires LevelTrue(fmt, files, l, ts)
    ensures ReadLevel(fmt, l, ts, k, maxSeq) == None <==> forall r :: r in LevelSet(ts) ==> !Visible(r, k, maxSeq)
  {
    hide *;
    if l == 0 {
      ReadTop(fmt, files, ts, k, maxSeq);
      NoneVisible(L0Sources(ts), k, maxSeq);
      L0Union(ts);
    } else {
      ReadDeep(fmt, files, l, ts, k, maxSeq);
      NewestSilent(LevelSet(ts), k, maxSeq);
    }
  }

  lemma NewestSilent(S: Source, k: bytes, maxSeq: nat)
    ensures Newest(S, k, maxSeq) == None <==> forall r :: r in S ==> !Visible(r, k, maxSeq)
  {
    if forall r :: r in S ==> !Visible(r, k, maxSeq) { NewestNone(S, k, maxSeq); }
  }

  // ---------------------------------------------------------------- one table in a level

  /** The only table of a level that spans a key is found. */
  lemma {:induction false} OnlySpans(ts: seq<Table>, k: bytes, t: Table)
    requires t in ts && Spans(t, k) && forall u :: u in ts && Spans(u, k) ==> u == t
    ensures FindInLevel(ts, k) == Some(t)
  {
    hide Spans;
    if ts[0] != t {
      assert ts[0] in ts && ts == [ts[0]] + ts[1..];
      OnlySpans(ts[1..], k, t);
    }
  }

  lemma {:induction false} FoundSpans(ts: seq<Table>, k: bytes)
    ensures FindInLevel(ts, k).Some? ==> FindInLevel(ts, k).value in ts && Spans(FindInLevel(ts, k).value, k)
    ensures FindInLevel(ts, k).None? ==> forall u :: u in ts ==> !Spans(u, k)
  {
    hide Spans;
    if ts != [] {
      FoundSpans(ts[1..], k);
      assert ts == [ts[0]] + ts[1..];
    }
  }

  // ---------------------------------------------------------------- which tables are probed

  lemma {:induction false} TopMembers(fmt: Format, ts: seq<Table>, k: bytes, t: Table)
    ensures t in L0Candidates(fmt, ts, k) <==> t in ts && MayHold(fmt, t, k)
  {
    hide MayHold;
    if ts != [] {
      TopMembers(fmt, ts[..|ts| - 1], k, t);
      assert ts == ts[..|ts| - 1] + [ts[|ts| - 1]];
    }
  }

  lemma {:induction false} MembersFrom(fmt: Format, levels: Levels, l: nat, k: bytes, t: Table)
    requires l <= |levels|
    ensures t in CandidatesFrom(fmt, levels, l, k) <==>
            exists i :: l <= i < |levels| && t in LevelCandidates(fmt, i, levels[i], k)
    decreases |levels| - l
  {
    hide LevelCandidates;
    if l < |levels| { MembersFrom(fmt, levels, l + 1, k, t); }
  }

  /** A table passes the checks `may_contain` makes: its range spans the key, and each probe of the
      key falls where a probe of one of its own keys falls. */
  ghost predicate PassesChecks(fmt: Format, t: Table, k: bytes) {
    && Leq(t.smallest, k) && Leq(k, t.largest)
    && var f := FilterOf(fmt, t.recs); f.nbits > 0 && Reader.ProbesMet(fmt.hash, t.recs, k, f.k, f.nbits)
  }

  lemma ChecksAre(fmt: Format, t: Table, k: bytes)
    ensures MayHold(fmt, t, k) <==> PassesChecks(fmt, t, k)
  {
    hide Bloom.Contains, FilterOf, Reader.ProbesMet, Leq;
    Reader.FilterExact(fmt, t.recs, k);
  }

  /** A read probes exactly the tables of L0 that pass those checks and, below L0, the tables whose
      range spans the key. */
  lemma CandidatesExactly(fmt: Format, files: Files, levels: Levels, k: bytes, t: Table)
    requires WellFormed(fmt, files, levels)
    ensures t in Candidates(fmt, levels, k) <==>
            || (|levels| > 0 && t in levels[0] && PassesChecks(fmt, t, k))
            || exists l :: 0 < l < |levels| && t in levels[l] && Leq(t.smallest, k) && Leq(k, t.largest)
  {
    hide *;
    FromTop(fmt, levels, k);
    MembersFrom(fmt, levels, 0, k, t);
    forall l: nat | l < |levels|
      ensures t in LevelCandidates(fmt, l, levels[l], k) <==>
              t in levels[l] && if l == 0 then PassesChecks(fmt, t, k) else Leq(t.smallest, k) && Leq(k, t.largest) {
      OfLevel(fmt, l, levels[l], k);
      if l == 0 {
        TopMembers(fmt, levels[0], k, t);
        ChecksAre(fmt, t, k);
      } else {
        DeepMember(fmt, files, levels, l, k, t);
      }
    }
  }

  lemma OfLevel(fmt: Format, l: nat, ts: seq<Table>, k: bytes)
    ensures l == 0 ==> LevelCandidates(fmt, l, ts, k) == L0Candidates(fmt, ts, k)
    ensures l > 0 ==> forall t :: t in LevelCandidates(fmt, l, ts, k) <==> FindInLevel(ts, k) == Some(t)
  {
    hide L0Candidates, FindInLevel;
  }

  lemma DeepMember(fmt: Format, files: Files, levels: Levels, l: nat, k: bytes, t: Table)
    requires WellFormed(fmt, files, levels) && 0 < l < |levels|
    ensures FindInLevel(levels[l], k) == Some(t) <==> t in levels[l] && Leq(t.smallest, k) && Leq(k, t.largest)
  {
    hide WellFormedTable, FindInLevel, Leq;
    var ts := levels[l];
    FoundSpans(ts, k);
    if t in ts && Spans(t, k) {
      forall u | u in ts && Spans(u, k) ensures u == t {
        if u != t { Apart(ts, t, u, k); }
      }
      OnlySpans(ts, k, t);
    }
  }

  lemma Apart(ts: seq<Table>, t: Table, u: Table, k: bytes)
    requires DisjointLevel(ts) && t in ts && u in ts && t != u
    ensures !(Spans(t, k) && Spans(u, k))
  {
    hide Spans, RangeBelow;
    var i :| 0 <= i < |ts| && ts[i] == t;
    var j :| 0 <= j < |ts| && ts[j] == u;
    if i < j { OneSpans(t, u, k); } else { OneSpans(u, t, k); }
  }
}
