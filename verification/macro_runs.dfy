/** `flush`, `compact` and the background loop are runs of the engine's events, so whatever holds
    of every run holds of them, however they are interleaved (src/db.rs 269-362). */
module MacroRuns {
  import opened ManifestLog
  import opened Histories
  import opened EngineOptions
  import opened Engine
  import opened EngineInvariant
  import opened EngineFlush
  import opened EngineCompact
  import opened Runs
  import EngineRecover

  ghost predicate CrashFree(es: seq<Event>) {
    forall e :: e in es ==> !e.Crash?
  }

  /** The events lead from `s` to `s'`, record nothing new and lose nothing. */
  ghost predicate LeadsTo(o: Options, s: State, H: History, es: seq<Event>, s': State)
    requires Inv(o, s, H) && o.Usable() && |s.levels| == o.maxLevels
  {
    CrashFree(es) && IsRun(o, s, H, es) && EndOf(o, s, H, es) == (s', H)
  }

  lemma LeadsIs(o: Options, s: State, H: History, es: seq<Event>, s': State)
    requires Inv(o, s, H) && o.Usable() && |s.levels| == o.maxLevels
    ensures LeadsTo(o, s, H, es, s') <==> CrashFree(es) && IsRun(o, s, H, es) && EndOf(o, s, H, es) == (s', H)
  {
  }

  lemma OneEvent(o: Options, s: State, H: History, e: Event)
    requires Inv(o, s, H) && o.Usable() && |s.levels| == o.maxLevels && CanHappen(o, s, e)
    ensures Inv(o, After(o, s, e), Recorded(o, s, H, e)) && |After(o, s, e).levels| == o.maxLevels
    ensures IsRun(o, s, H, [e]) && EndOf(o, s, H, [e]) == (After(o, s, e), Recorded(o, s, H, e))
  {
    hide Inv, CanHappen, After, Recorded, Options.Usable;
    EventInv(o, s, H, e);
    assert [e][1..] == [];
  }

  lemma {:induction false} RunJoin(o: Options, s: State, H: History, a: seq<Event>, b: seq<Event>)
    requires Inv(o, s, H) && o.Usable() && |s.levels| == o.maxLevels && IsRun(o, s, H, a)
    requires var m := EndOf(o, s, H, a); IsRun(o, m.0, m.1, b)
    ensures IsRun(o, s, H, a + b)
    ensures var m := EndOf(o, s, H, a); EndOf(o, s, H, a + b) == EndOf(o, m.0, m.1, b)
    decreases |a|
  {
    hide *;
    if a == [] {
      EmptyRun(o, s, H);
      assert a + b == b;
    } else {
      RunStep(o, s, H, a);
      var e := a[0];
      var s', H' := After(o, s, e), Recorded(o, s, H, e);
      RunJoin(o, s', H', a[1..], b);
      assert (a + b)[0] == e && (a + b)[1..] == a[1..] + b;
      ConsRun(o, s, H, a + b);
    }
  }

  lemma ConsRun(o: Options, s: State, H: History, es: seq<Event>)
    requires Inv(o, s, H) && o.Usable() && |s.levels| == o.maxLevels && es != [] && CanHappen(o, s, es[0])
    ensures Inv(o, After(o, s, es[0]), Recorded(o, s, H, es[0])) && |After(o, s, es[0]).levels| == o.maxLevels
    ensures IsRun(o, s, H, es) <==> IsRun(o, After(o, s, es[0]), Recorded(o, s, H, es[0]), es[1..])
    ensures IsRun(o, s, H, es) ==> EndOf(o, s, H, es) == EndOf(o, After(o, s, es[0]), Recorded(o, s, H, es[0]), es[1..])
  {
    hide Inv, CanHappen, After, Recorded, Options.Usable;
    EventInv(o, s, H, es[0]);
  }

  lemma Then(o: Options, s: State, H: History, a: seq<Event>, m: State, b: seq<Event>, s': State)
    requires Inv(o, s, H) && o.Usable() && |s.levels| == o.maxLevels && LeadsTo(o, s, H, a, m)
    requires Inv(o, m, H) && |m.levels| == o.maxLevels && LeadsTo(o, m, H, b, s')
    ensures LeadsTo(o, s, H, a + b, s')
  {
    hide *;
    LeadsIs(o, s, H, a, m);
    LeadsIs(o, m, H, b, s');
    RunJoin(o, s, H, a, b);
    JoinCrashFree(a, b);
    LeadsIs(o, s, H, a + b, s');
  }

  lemma JoinCrashFree(a: seq<Event>, b: seq<Event>)
    requires CrashFree(a) && CrashFree(b)
    ensures CrashFree(a + b)
  {
  }

  lemma Nothing(o: Options, s: State, H: History)
    requires Inv(o, s, H) && o.Usable() && |s.levels| == o.maxLevels
    ensures LeadsTo(o, s, H, [], s)
  {
  }

  lemma OneLeads(o: Options, s: State, H: History, e: Event)
    requires Inv(o, s, H) && o.Usable() && |s.levels| == o.maxLevels && CanHappen(o, s, e)
    requires !e.Crash? && !e.Write?
    ensures Inv(o, After(o, s, e), H) && |After(o, s, e).levels| == o.maxLevels
    ensures LeadsTo(o, s, H, [e], After(o, s, e))
  {
    hide *;
    RecordedIs(o, s, H, e);
    OneEvent(o, s, H, e);
    OneCrashFree(e);
    LeadsIs(o, s, H, [e], After(o, s, e));
  }

  lemma OneCrashFree(e: Event)
    requires !e.Crash?
    ensures CrashFree([e])
  {
  }

  lemma CanFlush(o: Options, s: State)
    requires o.Usable() && |s.levels| == o.maxLevels
    ensures |s.levels| >= 1
    ensures s.imms != [] ==> CanHappen(o, s, FlushOne) && After(o, s, FlushOne) == FlushOldest(o, s)
    ensures s.mem == [] && s.imms == [] && Replay(s.edits).lastSeq == s.nextSeq ==> CanHappen(o, s, NewLog) && After(o, s, NewLog) == RecreateLog(s)
    ensures s.mem != [] ==> CanHappen(o, s, FreezeMem) && After(o, s, FreezeMem) == Freeze(o, s)
    ensures forall w :: Engine.MaybeCompact(o, s, w).Some? ==>
              CanHappen(o, s, CompactOnce(w)) && After(o, s, CompactOnce(w)) == Engine.MaybeCompact(o, s, w).value
  {
    hide FlushOldest, RecreateLog, Freeze, Engine.MaybeCompact, Engine.Write, SyncLog, Open, Replay,
        EngineRecover.CrashImage;
  }

  /** One round of `flush_imms` is one event, or two when it starts the log afresh. */
  lemma RoundIsRun(o: Options, s: State, H: History) returns (es: seq<Event>)
    requires Inv(o, s, H) && o.Usable() && |s.levels| == o.maxLevels >= 1 && s.imms != []
    ensures LeadsTo(o, s, H, es, FlushRound(o, s))
  {
    hide *;
    CanFlush(o, s);
    FlushRoundIs(o, s);
    FlushOldestInv(o, s, H);
    OneLeads(o, s, H, FlushOne);
    var m := FlushOldest(o, s);
    es := [FlushOne];
    if s.imms[0] != [] && m.imms == [] && m.mem == [] {
      CanFlush(o, m);
      OneLeads(o, m, H, NewLog);
      Then(o, s, H, es, m, [NewLog], RecreateLog(m));
      es := es + [NewLog];
    }
  }

  /** `flush_imms` is a run. */
  lemma {:induction false} FlushImmsIsRun(o: Options, s: State, H: History) returns (es: seq<Event>)
    requires Inv(o, s, H) && o.Usable() && |s.levels| == o.maxLevels >= 1
    ensures LeadsTo(o, s, H, es, FlushImms(o, s))
    decreases |s.imms|
  {
    hide *;
    FlushImmsIs(o, s);
    Nothing(o, s, H);
    es := [];
    if s.imms != [] {
      FlushRoundIs(o, s);
      FlushRoundInv(o, s, H);
      es := RoundIsRun(o, s, H);
      var more := FlushImmsIsRun(o, FlushRound(o, s), H);
      Then(o, s, H, es, FlushRound(o, s), more, FlushImms(o, s));
      es := es + more;
    }
  }

  /** `flush` is a run. */
  lemma FlushIsRun(o: Options, s: State, H: History) returns (es: seq<Event>)
    requires Inv(o, s, H) && o.Usable() && |s.levels| == o.maxLevels >= 1
    ensures LeadsTo(o, s, H, es, Engine.Flush(o, s))
  {
    hide *;
    FlushIs(o, s);
    FreezeInv(o, s, H);
    CanFlush(o, s);
    if s.mem != [] {
      OneLeads(o, s, H, FreezeMem);
      var more := FlushImmsIsRun(o, Freeze(o, s), H);
      Then(o, s, H, [FreezeMem], Freeze(o, s), more, Engine.Flush(o, s));
      es := [FreezeMem] + more;
    } else {
      es := FlushImmsIsRun(o, s, H);
    }
  }

  /** `compact` is a run, when nothing comes between its rounds. */
  lemma CompactIsRun(o: Options, s: State, H: History, watermark: nat) returns (es: seq<Event>)
    requires Inv(o, s, H) && o.Usable() && |s.levels| == o.maxLevels >= 1
    ensures |Engine.Flush(o, s).levels| == o.maxLevels
    ensures LeadsTo(o, s, H, es, Rounds(o, Engine.Flush(o, s), watermark, 64))
  {
    hide *;
    var m := Engine.Flush(o, s);
    FlushInv(o, s, H);
    es := FlushIsRun(o, s, H);
    var more := RoundsAreRun(o, m, H, watermark, 64);
    Then(o, s, H, es, m, more, Rounds(o, m, watermark, 64));
    es := es + more;
  }

  /** Rounds of compaction are a run. */
  lemma {:induction false} RoundsAreRun(o: Options, s: State, H: History, watermark: nat, n: nat)
    returns (es: seq<Event>)
    requires Inv(o, s, H) && o.Usable() && |s.levels| == o.maxLevels
    ensures LeadsTo(o, s, H, es, Rounds(o, s, watermark, n))
    decreases n
  {
    hide *;
    Nothing(o, s, H);
    RoundsIs(o, s, watermark, n);
    MaybeCompactInv(o, s, H, watermark);
    es := [];
    if n > 0 && Engine.MaybeCompact(o, s, watermark).Some? {
      var m := Engine.MaybeCompact(o, s, watermark).value;
      CanFlush(o, s);
      OneLeads(o, s, H, CompactOnce(watermark));
      var more := RoundsAreRun(o, m, H, watermark, n - 1);
      Then(o, s, H, [CompactOnce(watermark)], m, more, Rounds(o, s, watermark, n));
      es := [CompactOnce(watermark)] + more;
    }
  }
}
