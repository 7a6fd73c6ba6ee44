/** Which compaction is picked, in the numbers the options give (src/compact.rs 45-96). */
module Picking {
  import opened ByteStrings
  import opened Versions
  import opened EngineOptions
  import opened Compaction
  import opened Releveling

  /** What the files of a level take. */
  function TotalSize(ts: seq<Table>): nat {
    if ts == [] then 0 else ts[0].size + TotalSize(ts[1..])
  }

  lemma {:induction false} SizeSplit(a: seq<Table>, b: seq<Table>)
    ensures TotalSize(a + b) == TotalSize(a) + TotalSize(b)
  {
    if a == [] {
      assert a + b == b;
    } else {
      SizeSplit(a[1..], b);
      assert (a + b)[1..] == a[1..] + b;
    }
  }

  lemma {:induction false} LevelBytesAre(ts: seq<Table>)
    ensures LevelBytes(ts) == TotalSize(ts)
  {
    if ts != [] {
      var front, last := ts[..|ts| - 1], ts[|ts| - 1];
      LevelBytesAre(front);
      SizeSplit(front, [last]);
      assert front + [last] == ts && [last][1..] == [];
    }
  }

  /** What each level may take: the base for L1, the ratio times more for each one below. */
  ghost predicate Limits(o: Options, limits: seq<nat>) {
    && |limits| == o.maxLevels >= 2 && limits[1] == o.baseLevelBytes
    && forall l :: 1 <= l < o.maxLevels - 1 ==> limits[l + 1] == o.levelRatio * limits[l]
  }

  lemma {:induction false} LimitsAre(o: Options, limits: seq<nat>, l: nat)
    requires Limits(o, limits) && 1 <= l < o.maxLevels
    ensures LevelLimit(o, l) == limits[l]
  {
    hide LevelLimit;
    if l == 1 {
      LimitIs(o, 1);
    } else {
      LimitsAre(o, limits, l - 1);
      LimitIs(o, l - 1);
    }
  }

  // ---------------------------------------------------------------- the lower inputs

  /** The range of a table meets the hull of some tables. */
  ghost predicate MeetsHull(t: Table, ts: seq<Table>) {
    exists a, b :: a in ts && b in ts && Leq(a.smallest, t.largest) && Leq(t.smallest, b.largest)
  }

  lemma {:induction false} HullAttained(ts: seq<Table>)
    requires ts != []
    ensures (exists t :: t in ts && t.smallest == LowKey(ts)) && (exists t :: t in ts && t.largest == HighKey(ts))
  {
    var front, last := ts[..|ts| - 1], ts[|ts| - 1];
    assert last in ts && ts == front + [last];
    if |ts| > 1 {
      HullAttained(front);
      hide Lt;
      if t :| t in front && t.smallest == LowKey(front) { assert t in ts; }
      if t :| t in front && t.largest == HighKey(front) { assert t in ts; }
    }
  }

  lemma MeetsIs(t: Table, ts: seq<Table>)
    requires ts != []
    ensures Meets(t, LowKey(ts), HighKey(ts)) <==> MeetsHull(t, ts)
  {
    hide LowKey, HighKey, Leq;
    HullAttained(ts);
    if a, b :| a in ts && b in ts && Leq(a.smallest, t.largest) && Leq(t.smallest, b.largest) {
      Hull(ts, a);
      Hull(ts, b);
      LeqLt(LowKey(ts), a.smallest, t.largest);
      LeqLt(t.smallest, b.largest, HighKey(ts));
    }
  }

  /** `part` is some of `all`, in the same order. */
  ghost predicate InOrder(part: seq<Table>, all: seq<Table>) {
    forall i, j :: 0 <= i < j < |part| ==> Earlier(all, part[i], part[j])
  }

  ghost predicate Earlier(all: seq<Table>, t: Table, u: Table) {
    exists p, q :: 0 <= p < q < |all| && all[p] == t && all[q] == u
  }

  lemma {:induction false} OverlappingOrder(ts: seq<Table>, lo: bytes, hi: bytes)
    ensures InOrder(Overlapping(ts, lo, hi), ts)
  {
    if ts != [] {
      hide Meets;
      var rest := Overlapping(ts[1..], lo, hi);
      OverlappingOrder(ts[1..], lo, hi);
      forall t, u | Earlier(ts[1..], t, u) ensures Earlier(ts, t, u) {
        var p, q :| 0 <= p < q < |ts[1..]| && ts[1..][p] == t && ts[1..][q] == u;
        assert ts[p + 1] == t && ts[q + 1] == u;
      }
      forall u | u in rest ensures Earlier(ts, ts[0], u) {
        OverlappingMembers(ts[1..], lo, hi, u);
        var q :| 0 <= q < |ts[1..]| && ts[1..][q] == u;
        assert ts[0] == ts[0] && ts[q + 1] == u;
      }
    }
  }

  // ---------------------------------------------------------------- the pick

  /** The job of a level: all of L0, or the first table of a deeper level, with exactly the tables
      of the level below that meet its hull. */
  ghost predicate JobAt(levels: Levels, l: nat, job: Job) {
    && l + 1 < |levels| && levels[l] != [] && job.level == l
    && job.upper == (if l == 0 then levels[0] else [levels[l][0]])
    && (forall t :: t in job.lower <==> t in levels[l + 1] && MeetsHull(t, job.upper))
    && InOrder(job.lower, levels[l + 1])
  }

  lemma JobForIs(levels: Levels, l: nat, upper: seq<Table>)
    requires l + 1 < |levels| && levels[l] != [] && upper == if l == 0 then levels[0] else [levels[l][0]]
    ensures JobAt(levels, l, JobFor(levels, l, upper)) && JobFor(levels, l, upper).level == l
  {
    hide Overlapping, LowKey, HighKey, MeetsHull, InOrder, Meets;
    var job := JobFor(levels, l, upper);
    OverlappingOrder(levels[l + 1], LowKey(upper), HighKey(upper));
    forall t ensures t in job.lower <==> t in levels[l + 1] && MeetsHull(t, upper) {
      OverlappingMembers(levels[l + 1], LowKey(upper), HighKey(upper), t);
      MeetsIs(t, upper);
    }
  }

  lemma {:induction false} PickDeepIs(o: Options, levels: Levels, limits: seq<nat>, l: nat)
    requires 1 <= l && |levels| == o.maxLevels && Limits(o, limits)
    ensures match PickDeep(o, levels, l)
            case None => forall i :: l <= i < o.maxLevels - 1 ==> TotalSize(levels[i]) <= limits[i]
            case Some(job) =>
              && l <= job.level < o.maxLevels - 1 && JobAt(levels, job.level, job)
              && TotalSize(levels[job.level]) > limits[job.level]
              && forall i :: l <= i < job.level ==> TotalSize(levels[i]) <= limits[i]
    decreases o.maxLevels - l
  {
    hide JobAt, JobFor, LevelLimit, LevelBytes, Limits;
    if l + 1 < o.maxLevels {
      LevelBytesAre(levels[l]);
      LimitsAre(o, limits, l);
      LimitsLong(o, limits);
      if LevelBytes(levels[l]) > LevelLimit(o, l) {
        if levels[l] != [] { JobForIs(levels, l, [levels[l][0]]); }
      } else {
        PickDeepIs(o, levels, limits, l + 1);
      }
    } else {
      LimitsLong(o, limits);
    }
  }

  lemma LimitsLong(o: Options, limits: seq<nat>)
    ensures Limits(o, limits) ==> |limits| == o.maxLevels
  {
  }

  /** What `pick_compaction` picks. L0 comes first, if it has as many files as the trigger; then the
      first level that takes more than its limit, the last one left alone. Nothing is picked exactly
      if there is no such level. */
  lemma PickExactly(o: Options, levels: Levels, limits: seq<nat>)
    requires o.Usable() && |levels| == o.maxLevels && Limits(o, limits)
    ensures match Pick(o, levels)
            case None =>
              && |levels[0]| < o.l0Trigger
              && forall l :: 1 <= l < o.maxLevels - 1 ==> TotalSize(levels[l]) <= limits[l]
            case Some(job) =>
              && job.level < o.maxLevels - 1 && JobAt(levels, job.level, job)
              && (|levels[0]| >= o.l0Trigger ==> job.level == 0)
              && (|levels[0]| < o.l0Trigger ==>
                    && job.level >= 1 && TotalSize(levels[job.level]) > limits[job.level]
                    && forall l :: 1 <= l < job.level ==> TotalSize(levels[l]) <= limits[l])
  {
    hide JobAt, JobFor, PickDeep;
    PickDeepIs(o, levels, limits, 1);
    if |levels[0]| >= o.l0Trigger { JobForIs(levels, 0, levels[0]); }
  }

  /** So L1 is left exactly when L0 is below its trigger and the files of L1 take more than the base. */
  lemma FirstLevelLeft(o: Options, levels: Levels, limits: seq<nat>)
    requires o.Usable() && |levels| == o.maxLevels && Limits(o, limits)
    ensures Pick(o, levels).Some? && Pick(o, levels).value.level == 1 <==>
            o.maxLevels >= 3 && |levels[0]| < o.l0Trigger && TotalSize(levels[1]) > o.baseLevelBytes
  {
    hide Pick, JobAt;
    PickExactly(o, levels, limits);
  }
}
