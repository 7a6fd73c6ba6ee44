/** How far writers can run ahead of flushing: the stall bound (src/db.rs 151-177, 269-281, 364-415). */
module Stalls {
  import opened ByteStrings
  import opened Keys
  import opened Records
  import opened Versions
  import opened Histories
  import opened EngineOptions
  import opened Compaction
  import opened Releveling
  import opened LevelFaith
  import opened Engine
  import opened EngineInvariant
  import opened EngineFlush
  import opened EngineCompact
  import Runs
  import MemTables

  /** What runs under one hold of the lock, start to end. */
  datatype Op =
    | Write(key: bytes, value: bytes, kind: ValueKind)
    | Sync
    | Flush
    | CompactOnce(watermark: nat)
    | Background(watermark: nat)

  lemma {:induction false} FlushImmsLength(o: Options, s: State)
    requires |s.levels| >= 1
    ensures |FlushImms(o, s).levels| == |s.levels|
    decreases |s.imms|
  {
    FlushImmsIs(o, s);
    if s.imms != [] {
      hide FlushImms, FlushRound;
      FlushRoundIs(o, s);
      FlushImmsLength(o, FlushRound(o, s));
    }
  }

  function CompactIfAny(o: Options, s: State, watermark: nat): State
    requires o.Usable() && |s.levels| == o.maxLevels
  {
    match MaybeCompact(o, s, watermark) case None => s case Some(s') => s'
  }

  function After(o: Options, s: State, op: Op): State
    requires o.Usable() && |s.levels| == o.maxLevels
  {
    match op
    case Write(k, v, kind) => Engine.Write(o, s, k, v, kind)
    case Sync => SyncLog(o, s)
    case Flush => Engine.Flush(o, s)
    case CompactOnce(w) => CompactIfAny(o, s, w)
    case Background(w) =>
      FlushImmsLength(o, s);
      CompactIfAny(o, FlushImms(o, s), w)
  }

  function Recorded(o: Options, s: State, H: History, op: Op): History
    requires o.Usable() && |s.levels| == o.maxLevels
  {
    if op.Write? && !Stalled(o, s) then H + [NewRecord(s, op.key, op.value, op.kind)] else H
  }

  /** L0 files, plus everything that will become one. */
  function Load(s: State): nat
    requires |s.levels| >= 1
  {
    |s.levels[0]| + |s.imms| + (if s.mem == [] then 0 else 1)
  }

  predicate Bounded(o: Options, s: State)
    requires |s.levels| >= 1
  {
    |s.imms| <= 2 && Load(s) <= 2 * o.l0Trigger + 1
  }

  // ---------------------------------------------------------------- each operation

  lemma WriteLoad(o: Options, s: State, key: bytes, value: bytes, kind: ValueKind)
    requires |s.levels| >= 1 && Bounded(o, s)
    ensures Engine.Write(o, s, key, value, kind).levels == s.levels
    ensures Bounded(o, Engine.Write(o, s, key, value, kind))
  {
    hide MemTables.Inserted, MemTables.Cost;
  }

  lemma RoundLoad(o: Options, s: State)
    requires s.imms != [] && |s.levels| >= 1
    ensures FlushRound(o, s).imms == s.imms[1..] && |FlushRound(o, s).levels| == |s.levels|
    ensures Load(FlushRound(o, s)) <= Load(s)
  {
    hide NewTable, FlushEdits;
  }

  lemma {:induction false} FlushImmsLoad(o: Options, s: State)
    requires |s.levels| >= 1
    ensures FlushImms(o, s).imms == [] && |FlushImms(o, s).levels| == |s.levels|
    ensures Load(FlushImms(o, s)) <= Load(s)
    decreases |s.imms|
  {
    FlushImmsIs(o, s);
    if s.imms != [] {
      hide FlushImms, FlushRound, Load;
      RoundLoad(o, s);
      FlushImmsLoad(o, FlushRound(o, s));
    }
  }

  lemma FreezeLoad(o: Options, s: State)
    requires |s.levels| >= 1 && s.mem != []
    ensures |Freeze(o, s).levels| == |s.levels| && Load(Freeze(o, s)) == Load(s)
  {
  }

  /** A compaction empties L0 or leaves it alone. */
  lemma CompactLoad(o: Options, s: State, H: History, watermark: nat)
    requires Inv(o, s, H) && o.Usable() && |s.levels| == o.maxLevels
    ensures |CompactIfAny(o, s, watermark).levels| == o.maxLevels >= 2
    ensures CompactIfAny(o, s, watermark).imms == s.imms
    ensures Load(CompactIfAny(o, s, watermark)) <= Load(s)
  {
    hide *;
    UsableLevels(o);
    CompactIfAnyIs(o, s, watermark);
    MaybeCompactIs(o, s, watermark);
    PickJob(o, s.levels);
    InvIs(o, s, H);
    var pick := Pick(o, s.levels);
    if pick.Some? {
      var job, step := pick.value, JobStep(o, s, pick.value, watermark);
      CompactFields(o, s, job, watermark);
      CompactLength(o, s, job, watermark);
      JobStepGood(o, s, H, job, watermark);
      if job.level == 0 { TopEmptied(step); } else { LevelUntouched(step, 0); }
      LoadIs(s);
      LoadIs(CompactJob(o, s, job, watermark));
    }
  }

  lemma CompactIfAnyIs(o: Options, s: State, watermark: nat)
    requires o.Usable() && |s.levels| == o.maxLevels
    ensures CompactIfAny(o, s, watermark) == match MaybeCompact(o, s, watermark) case None => s case Some(s') => s'
  {
  }

  lemma LoadIs(s: State)
    requires |s.levels| >= 1
    ensures Load(s) == |s.levels[0]| + |s.imms| + (if s.mem == [] then 0 else 1)
  {
  }

  lemma CompactIfAnyInv(o: Options, s: State, H: History, watermark: nat)
    requires Inv(o, s, H) && o.Usable() && |s.levels| == o.maxLevels
    ensures Inv(o, CompactIfAny(o, s, watermark), H)
  {
    hide *;
    CompactIfAnyIs(o, s, watermark);
    MaybeCompactInv(o, s, H, watermark);
  }

  lemma FlushLoad(o: Options, s: State)
    requires |s.levels| >= 1
    ensures |Engine.Flush(o, s).levels| == |s.levels| && Engine.Flush(o, s).imms == []
    ensures Load(Engine.Flush(o, s)) <= Load(s)
  {
    hide *;
    FlushIs(o, s);
    if s.mem != [] { FreezeLoad(o, s); }
    FlushImmsLoad(o, if s.mem != [] then Freeze(o, s) else s);
  }

  lemma AfterIs(o: Options, s: State, op: Op)
    requires o.Usable() && |s.levels| == o.maxLevels
    ensures |FlushImms(o, s).levels| == |s.levels| >= 2
    ensures op.Write? ==> After(o, s, op) == Engine.Write(o, s, op.key, op.value, op.kind)
    ensures op.Sync? ==> After(o, s, op) == SyncLog(o, s)
    ensures op.Flush? ==> After(o, s, op) == Engine.Flush(o, s)
    ensures op.CompactOnce? ==> After(o, s, op) == CompactIfAny(o, s, op.watermark)
    ensures op.Background? ==> After(o, s, op) == CompactIfAny(o, FlushImms(o, s), op.watermark)
  {
    FlushImmsLength(o, s);
  }

  lemma BoundedIs(o: Options, s: State)
    requires |s.levels| >= 1
    ensures Bounded(o, s) <==> |s.imms| <= 2 && Load(s) <= 2 * o.l0Trigger + 1
  {
  }

  lemma RecordedIs(o: Options, s: State, H: History, op: Op)
    requires o.Usable() && |s.levels| == o.maxLevels
    ensures o.maxLevels >= 2
    ensures Recorded(o, s, H, op) == if op.Write? && !Stalled(o, s) then H + [NewRecord(s, op.key, op.value, op.kind)] else H
  {
  }

  /** Every operation keeps the invariant and the bound. */
  lemma OpKeepsBound(o: Options, s: State, H: History, op: Op)
    requires Inv(o, s, H) && o.Usable() && |s.levels| == o.maxLevels >= 1 && Bounded(o, s)
    ensures Inv(o, After(o, s, op), Recorded(o, s, H, op))
    ensures |After(o, s, op).levels| == o.maxLevels && Bounded(o, After(o, s, op))
  {
    hide *;
    AfterIs(o, s, op);
    RecordedIs(o, s, H, op);
    var s' := After(o, s, op);
    BoundedIs(o, s);
    match op {
      case Write(k, v, kind) =>
        WriteInv(o, s, H, k, v, kind);
        WriteLoad(o, s, k, v, kind);
      case Sync =>
        SyncInv(o, s, H);
        SyncFields(o, s);
        LoadIs(s);
        LoadIs(s');
      case Flush =>
        FlushInv(o, s, H);
        FlushLoad(o, s);
      case CompactOnce(w) =>
        CompactIfAnyInv(o, s, H, w);
        CompactLoad(o, s, H, w);
      case Background(w) =>
        FlushImmsInv(o, s, H);
        FlushImmsLoad(o, s);
        CompactIfAnyInv(o, FlushImms(o, s), H, w);
        CompactLoad(o, FlushImms(o, s), H, w);
    }
    InvLevels(o, s', Recorded(o, s, H, op));
    BoundedIs(o, s');
  }

  // ---------------------------------------------------------------- a stall ends

  lemma StalledIs(o: Options, s: State)
    requires |s.levels| >= 1
    ensures Stalled(o, s) <==> |s.imms| >= 2 || |s.levels[0]| >= o.l0Trigger * 2
  {
  }

  /** A compaction that can be picked leaves L0 below the stall limit: over the trigger all of L0 is
      taken, below it L0 is short enough. */
  lemma CompactedTop(o: Options, s: State, H: History, watermark: nat)
    requires Inv(o, s, H) && o.Usable() && |s.levels| == o.maxLevels
    ensures var s' := CompactIfAny(o, s, watermark); |s'.levels| == o.maxLevels >= 2 && |s'.levels[0]| < 2 * o.l0Trigger
  {
    hide *;
    UsableLevels(o);
    CompactIfAnyIs(o, s, watermark);
    MaybeCompactIs(o, s, watermark);
    InvIs(o, s, H);
    PickTop(o, s.levels);
    PickJob(o, s.levels);
    var pick := Pick(o, s.levels);
    if pick.Some? {
      var job, step := pick.value, JobStep(o, s, pick.value, watermark);
      CompactFields(o, s, job, watermark);
      CompactLength(o, s, job, watermark);
      JobStepGood(o, s, H, job, watermark);
      if job.level == 0 { TopEmptied(step); } else { LevelUntouched(step, 0); }
    }
  }

  lemma PickTop(o: Options, levels: Levels)
    requires o.Usable() && |levels| == o.maxLevels
    ensures o.l0Trigger >= 1 && |levels| >= 2
    ensures Pick(o, levels).None? || Pick(o, levels).value.level > 0 ==> |levels[0]| < o.l0Trigger
  {
    hide PickDeep, JobFor;
    if Pick(o, levels).Some? { PickIsFirst(o, levels); }
  }

  /** A stalled writer waits for one turn of the background loop at most: after it nothing stalls. */
  lemma BackgroundUnblocks(o: Options, s: State, H: History, watermark: nat)
    requires Inv(o, s, H) && o.Usable() && |s.levels| == o.maxLevels
    ensures var s' := After(o, s, Background(watermark)); |s'.levels| == o.maxLevels >= 2 && !Stalled(o, s')
  {
    hide *;
    AfterIs(o, s, Background(watermark));
    FlushImmsInv(o, s, H);
    CompactedTop(o, FlushImms(o, s), H, watermark);
    CompactLoad(o, FlushImms(o, s), H, watermark);
    StalledIs(o, After(o, s, Background(watermark)));
  }

  // ---------------------------------------------------------------- runs

  function AfterAll(o: Options, s: State, ops: seq<Op>): Option<State>
    requires o.Usable() && |s.levels| == o.maxLevels
    decreases ops
  {
    if ops == [] then Some(s)
    else if |After(o, s, ops[0]).levels| == o.maxLevels then AfterAll(o, After(o, s, ops[0]), ops[1..])
    else None
  }

  lemma {:induction false} AllKeepBound(o: Options, s: State, H: History, ops: seq<Op>)
    requires Inv(o, s, H) && o.Usable() && |s.levels| == o.maxLevels >= 1 && Bounded(o, s)
    ensures var end := AfterAll(o, s, ops);
            end.Some? && |end.value.levels| == o.maxLevels && Bounded(o, end.value)
    decreases ops
  {
    if ops != [] {
      hide Inv, After, Recorded, Bounded, Options.Usable;
      OpKeepsBound(o, s, H, ops[0]);
      AllKeepBound(o, After(o, s, ops[0]), Recorded(o, s, H, ops[0]), ops[1..]);
    }
  }

  /** In every crash-free run from an empty database, at each release of the lock at most two
      memtables are frozen and L0 has at most `2 * l0_compaction_trigger + 1` files. */
  lemma StallBound(o: Options, files: Files, ops: seq<Op>)
    requires o.Usable() && |Runs.Fresh(o, files).levels| == o.maxLevels
    ensures var end := AfterAll(o, Runs.Fresh(o, files), ops);
            && end.Some? && |end.value.levels| == o.maxLevels
            && |end.value.imms| <= 2 && |end.value.levels[0]| <= 2 * o.l0Trigger + 1
  {
    hide *;
    var s := Runs.Fresh(o, files);
    UsableLevels(o);
    Runs.FreshInv(o, files);
    FreshLoad(o, files);
    BoundedIs(o, s);
    AllKeepBound(o, s, [], ops);
    var end := AfterAll(o, s, ops).value;
    BoundedIs(o, end);
    LoadIs(end);
  }

  lemma FreshLoad(o: Options, files: Files)
    requires o.maxLevels >= 2
    ensures |Runs.Fresh(o, files).levels| == o.maxLevels
    ensures Runs.Fresh(o, files).imms == [] && Load(Runs.Fresh(o, files)) == 0
  {
  }

  lemma {:induction false} AllJoin(o: Options, s: State, a: seq<Op>, b: seq<Op>)
    requires o.Usable() && |s.levels| == o.maxLevels && AfterAll(o, s, a).Some?
    ensures var m := AfterAll(o, s, a).value; |m.levels| == o.maxLevels && AfterAll(o, s, a + b) == AfterAll(o, m, b)
    decreases a
  {
    hide After, Options.Usable;
    if a == [] {
      assert a + b == b;
    } else {
      AllJoin(o, After(o, s, a[0]), a[1..], b);
      assert (a + b)[0] == a[0] && (a + b)[1..] == a[1..] + b;
    }
  }

  lemma OneOp(o: Options, s: State, op: Op)
    requires o.Usable() && |s.levels| == o.maxLevels && |After(o, s, op).levels| == o.maxLevels
    ensures AfterAll(o, s, [op]) == Some(After(o, s, op))
  {
    hide After, Options.Usable;
    assert [op][1..] == [];
  }

  lemma TwoOps(o: Options, s: State, a: Op, b: Op)
    requires o.Usable() && |s.levels| == o.maxLevels && |After(o, s, a).levels| == o.maxLevels
    requires |After(o, After(o, s, a), b).levels| == o.maxLevels
    ensures AfterAll(o, s, [a, b]) == Some(After(o, After(o, s, a), b))
  {
    hide *;
    OneOp(o, s, a);
    OneOp(o, After(o, s, a), b);
    AllJoin(o, s, [a], [b]);
    assert [a] + [b] == [a, b];
  }

  /** A write so large that it fills the memtable at once. */
  function Large(o: Options): Op {
    Write(seq(o.memtableBytes, i => 0), [], Put)
  }

  /** Nothing in the memtable, `m` frozen memtables that are not empty, `n` files in L0. */
  ghost predicate Queued(o: Options, s: State, m: nat, n: nat) {
    && |s.levels| == o.maxLevels >= 1 && s.mem == [] && |s.imms| == m && |s.levels[0]| == n
    && forall i :: 0 <= i < m ==> s.imms[i] != []
  }

  lemma QueuedIs(o: Options, s: State, m: nat, n: nat)
    ensures Queued(o, s, m, n) <==>
            && |s.levels| == o.maxLevels >= 1 && s.mem == [] && |s.imms| == m && |s.levels[0]| == n
            && forall i :: 0 <= i < m ==> s.imms[i] != []
  {
  }

  lemma LargeWrite(o: Options, s: State, m: nat, n: nat)
    requires o.Usable() && Queued(o, s, m, n) && m < 2 && n < 2 * o.l0Trigger
    ensures Queued(o, After(o, s, Large(o)), m + 1, n)
  {
    InsertedSome(s.mem, NewRecord(s, Large(o).key, [], Put));
    hide MemTables.Inserted;
  }

  lemma InsertedSome(rs: seq<Record>, r: Record)
    ensures MemTables.Inserted(rs, r) != []
  {
  }

  lemma OneFlushed(o: Options, s: State, m: nat, n: nat)
    requires o.Usable() && Queued(o, s, m, n) && m > 0
    ensures Queued(o, FlushRound(o, s), m - 1, n + 1)
  {
    hide NewTable, FlushEdits;
  }

  lemma {:induction false} AllFlushed(o: Options, s: State, m: nat, n: nat)
    requires o.Usable() && Queued(o, s, m, n)
    ensures |s.levels| >= 1 && Queued(o, FlushImms(o, s), 0, n + m)
    decreases m
  {
    hide *;
    QueuedIs(o, s, m, n);
    FlushImmsIs(o, s);
    if m > 0 {
      OneFlushed(o, s, m, n);
      QueuedIs(o, FlushRound(o, s), m - 1, n + 1);
      AllFlushed(o, FlushRound(o, s), m - 1, n + 1);
    }
  }

  lemma FlushQueued(o: Options, s: State, m: nat, n: nat)
    requires o.Usable() && Queued(o, s, m, n)
    ensures |s.levels| == o.maxLevels && Queued(o, After(o, s, Flush), 0, n + m)
  {
    hide *;
    QueuedIs(o, s, m, n);
    AfterIs(o, s, Flush);
    FlushIs(o, s);
    AllFlushed(o, s, m, n);
  }

  /** Large writes, each flushed, fill L0 up to just below the stall limit. */
  lemma {:induction false} FillTop(o: Options, s: State, n: nat) returns (ops: seq<Op>)
    requires o.Usable() && Queued(o, s, 0, n) && n < 2 * o.l0Trigger
    ensures |s.levels| == o.maxLevels && AfterAll(o, s, ops).Some?
    ensures Queued(o, AfterAll(o, s, ops).value, 0, 2 * o.l0Trigger - 1)
    decreases 2 * o.l0Trigger - n
  {
    hide *;
    QueuedIs(o, s, 0, n);
    ops := [];
    NoOps(o, s);
    if n < 2 * o.l0Trigger - 1 {
      var s1 := After(o, s, Large(o));
      LargeWrite(o, s, 0, n);
      QueuedIs(o, s1, 1, n);
      FlushQueued(o, s1, 1, n);
      var s2 := After(o, s1, Flush);
      QueuedIs(o, s2, 0, n + 1);
      TwoOps(o, s, Large(o), Flush);
      var more := FillTop(o, s2, n + 1);
      AllJoin(o, s, [Large(o), Flush], more);
      ops := [Large(o), Flush] + more;
    }
  }

  lemma NoOps(o: Options, s: State)
    requires o.Usable() && |s.levels| == o.maxLevels
    ensures AfterAll(o, s, []) == Some(s)
  {
  }

  /** The bound is reached, whatever the options: there are operations from the empty database after
      which two memtables are frozen, and the next flush takes L0 to `2 * l0_compaction_trigger + 1`
      files. */
  lemma BoundIsTight(o: Options, files: Files) returns (ops: seq<Op>)
    requires o.Usable() && |Runs.Fresh(o, files).levels| == o.maxLevels
    ensures var end := AfterAll(o, Runs.Fresh(o, files), ops); end.Some? && |end.value.imms| == 2
    ensures var end := AfterAll(o, Runs.Fresh(o, files), ops + [Flush]);
            end.Some? && |end.value.levels| >= 1 && |end.value.levels[0]| == 2 * o.l0Trigger + 1
  {
    hide *;
    var s, full := Runs.Fresh(o, files), 2 * o.l0Trigger - 1;
    UsableLevels(o);
    FreshQueued(o, files);
    var fill := FillTop(o, s, 0);
    var s1 := AfterAll(o, s, fill).value;
    LargeWrite(o, s1, 0, full);
    QueuedIs(o, s1, 0, full);
    var s2 := After(o, s1, Large(o));
    QueuedIs(o, s2, 1, full);
    LargeWrite(o, s2, 1, full);
    var s3 := After(o, s2, Large(o));
    QueuedIs(o, s3, 2, full);
    TwoOps(o, s1, Large(o), Large(o));
    AllJoin(o, s, fill, [Large(o), Large(o)]);
    ops := fill + [Large(o), Large(o)];
    FlushQueued(o, s3, 2, full);
    QueuedIs(o, After(o, s3, Flush), 0, full + 2);
    OneOp(o, s3, Flush);
    AllJoin(o, s, ops, [Flush]);
  }

  lemma FreshQueued(o: Options, files: Files)
    requires o.Usable()
    ensures o.l0Trigger >= 1 && Queued(o, Runs.Fresh(o, files), 0, 0)
  {
    FreshLoad(o, files);
  }
}
