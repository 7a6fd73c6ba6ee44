/** Compaction as a step of the engine, and running it until nothing is left to do
    (src/db.rs 283-295 and 417-461). */
module EngineCompact {
  import opened ByteStrings
  import opened Records
  import opened WriteAheadLog
  import opened ManifestLog
  import opened Versions
  import opened Sources
  import opened Histories
  import opened EngineOptions
  import opened Compaction
  import opened Releveling
  import opened CompactedLevels
  import opened CompactionSteps
  import opened LevelFaith
  import opened Engine
  import opened EngineInvariant
  import CompactionFaith
  import EngineFlush
  import Keys
  import Scans

  // ---------------------------------------------------------------- the files that are removed

  lemma ObsoleteIs(job: Job, n: nat)
    ensures n in Obsolete(job) <==> exists t :: (t in job.upper || t in job.lower) && t.num == n
  {
  }

  /** No table of the new version loses its file. */
  lemma StaysNotObsolete(s: Step, l: nat, t: Table)
    requires s.Good() && l < |s.levels| && s.Stays(l, t)
    ensures t.num !in Obsolete(s.job)
  {
    hide *;
    ObsoleteIs(s.job, t.num);
    GoodParts(s);
    JobTables(s);
    if u :| (u in s.job.upper || u in s.job.lower) && u.num == t.num {
      var k := if u in s.job.upper then s.job.level else s.job.level + 1;
      KeptTable(s, k, u);
      EngineFlush.SoundFacts(s.fmt, s.files, s.levels, s.next);
      StaysIs(s, l, t);
      if t in s.added && l == s.job.level + 1 { AddedTable(s, t); }
    }
  }

  lemma StaysIs(s: Step, l: nat, t: Table)
    ensures s.Stays(l, t) <==>
            || (l < |s.levels| && t in s.levels[l] && !(l == s.job.level && t in s.job.upper)
                && !(l == s.job.level + 1 && t in s.job.lower))
            || (l == s.job.level + 1 && t in s.added)
  {
  }

  /** The new version is sound also once the input files are gone. */
  lemma CompactedSound(s: Step)
    requires s.Good()
    ensures |s.NewLevels()| == |s.levels|
    ensures Sound(s.fmt, s.NewFiles() - Obsolete(s.job), s.NewLevels(), s.next + |s.added|)
  {
    hide *;
    var v, files := s.NewLevels(), s.NewFiles() - Obsolete(s.job);
    NewLevelsSound(s);
    forall l: nat, t: Table | l < |v| && t in v[l] && t.num in s.NewFiles()
      ensures t.num in files && files[t.num] == s.NewFiles()[t.num] {
      NewLevelMembers(s, l);
      StaysNotObsolete(s, l, t);
    }
    EngineFlush.SoundElsewhere(s.fmt, s.NewFiles(), files, v, s.next + |s.added|, s.next + |s.added|);
  }

  // ---------------------------------------------------------------- the step

  function JobStep(o: Options, s: State, job: Job, watermark: nat): Step {
    StepOf(o, s.files, s.levels, s.nextFile, job, watermark)
  }

  lemma CompactFields(o: Options, s: State, job: Job, watermark: nat)
    ensures var step, s' := JobStep(o, s, job, watermark), CompactJob(o, s, job, watermark);
            && s' == s.(levels := step.NewLevels(), files := step.NewFiles() - Obsolete(job),
                        edits := s.edits + step.Edits(), nextFile := s.nextFile + |step.added|)
            && step.fmt == o.fmt && step.files == s.files && step.levels == s.levels && step.next == s.nextFile
                && step.job == job
  {
    hide Step.NewLevels, Step.NewFiles, Step.Edits, Outputs;
  }

  lemma JobStepGood(o: Options, s: State, H: History, job: Job, watermark: nat)
    requires Live(o, s, H) && JobOf(s.levels, job)
    ensures JobStep(o, s, job, watermark).Good() && Writes(JobStep(o, s, job, watermark), watermark)
  {
    LiveIs(o, s, H);
    hide Live, Sound, JobOf, Step.Good, Writes, StepOf;
    StepIsGood(o, s.files, s.levels, s.nextFile, job, watermark);
  }

  lemma CompactLive(o: Options, s: State, H: History, job: Job, watermark: nat)
    requires Live(o, s, H) && JobOf(s.levels, job)
    ensures Live(o, CompactJob(o, s, job, watermark), H)
  {
    hide *;
    var step, s' := JobStep(o, s, job, watermark), CompactJob(o, s, job, watermark);
    LiveIs(o, s, H);
    CompactFields(o, s, job, watermark);
    JobStepGood(o, s, H, job, watermark);
    CompactedSound(step);
    SourcesIs(s);
    SourcesIs(s');
    CompactionFaithful(step, [Contents(s.mem)] + Frozen(s.imms), watermark, H);
    LiveIs(o, s', H);
  }

  lemma ReplaySplit(es: seq<Edit>, more: seq<Edit>)
    ensures Replay(es + more) == ApplyAll(Replay(es), more)
  {
    hide ApplyAll;
    ApplySplit(EmptyCatalog, es, more);
  }

  lemma CompactCatalogued(o: Options, s: State, H: History, job: Job, watermark: nat)
    requires Live(o, s, H) && JobOf(s.levels, job) && Catalogued(s)
    ensures Catalogued(CompactJob(o, s, job, watermark))
    ensures Replay(CompactJob(o, s, job, watermark).edits).lastSeq == Replay(s.edits).lastSeq
  {
    hide *;
    var step, s' := JobStep(o, s, job, watermark), CompactJob(o, s, job, watermark);
    CompactFields(o, s, job, watermark);
    JobStepGood(o, s, H, job, watermark);
    CataloguedIs(s);
    CataloguedIs(s');
    ReplaySplit(s.edits, step.Edits());
    CatalogFollows(step, Replay(s.edits));
    AtLeastOneSum(Replay(s.edits).nextFileNum, |step.added|);
  }

  lemma AtLeastOneSum(n: nat, k: nat)
    ensures AtLeastOne(AtLeastOne(n) + k) == AtLeastOne(n) + k
  {
  }

  lemma CompactLogged(o: Options, s: State, H: History, job: Job, watermark: nat)
    requires Live(o, s, H) && JobOf(s.levels, job) && Catalogued(s) && Logged(s, H)
    ensures Logged(CompactJob(o, s, job, watermark), H)
  {
    hide *;
    var s' := CompactJob(o, s, job, watermark);
    CompactFields(o, s, job, watermark);
    CompactCatalogued(o, s, H, job, watermark);
    LoggedIs(s, H);
    LoggedIs(s', H);
  }

  lemma CompactSafe(o: Options, s: State, H: History, job: Job, watermark: nat)
    requires Live(o, s, H) && JobOf(s.levels, job) && Safe(o, s, H)
    ensures Safe(o, CompactJob(o, s, job, watermark), H)
  {
    hide *;
    var step, s', d := JobStep(o, s, job, watermark), CompactJob(o, s, job, watermark), s.log.durable;
    LiveIs(o, s, H);
    CompactFields(o, s, job, watermark);
    JobStepGood(o, s, H, job, watermark);
    LoggedIs(s, H);
    LoggedIs(s', H);
    SafeIs(o, s, H);
    OnDiskIs(s, H, d);
    OnDiskIs(s', H, d);
    IncreasingTake(H, |H| - |s.log.recs| + d);
    CompactionFaithful(step, [Contents(s.log.recs[..d])], watermark, Remaining(s, H, d));
    SafeIs(o, s', H);
  }

  lemma CompactReopens(o: Options, s: State, H: History, job: Job, watermark: nat)
    requires Live(o, s, H) && JobOf(s.levels, job) && Reopens(s, H)
    ensures Reopens(CompactJob(o, s, job, watermark), H)
  {
    hide *;
    var step, s' := JobStep(o, s, job, watermark), CompactJob(o, s, job, watermark);
    LiveIs(o, s, H);
    CompactFields(o, s, job, watermark);
    JobStepGood(o, s, H, job, watermark);
    ReopensIs(s, H);
    ReopensIs(s', H);
    CompactionFaithful(step, [Contents(s.log.recs)], watermark, H);
  }

  /** Compaction keeps the invariant, for every job that can be picked and every watermark. */
  lemma CompactJobInv(o: Options, s: State, H: History, job: Job, watermark: nat)
    requires Inv(o, s, H) && JobOf(s.levels, job)
    ensures Inv(o, CompactJob(o, s, job, watermark), H)
  {
    hide *;
    InvIs(o, s, H);
    CompactLive(o, s, H, job, watermark);
    CompactCatalogued(o, s, H, job, watermark);
    CompactLogged(o, s, H, job, watermark);
    CompactReopens(o, s, H, job, watermark);
    if o.fsync != Never { CompactSafe(o, s, H, job, watermark); }
    InvIs(o, CompactJob(o, s, job, watermark), H);
  }

  /** What a compaction leaves of its inputs, at every state of the invariant: of each key the newest
      version, and of a deleted key nothing, if no snapshot needs the tombstone and the output goes
      to the last level. The input files are removed, and no other. */
  lemma CompactWrites(o: Options, s: State, H: History, job: Job, watermark: nat, r: Record)
    requires Inv(o, s, H) && JobOf(s.levels, job)
    ensures r in LevelSet(JobStep(o, s, job, watermark).added) <==>
            && CompactionFaith.NewestOfKey(InputSet(job), r)
            && !(r.ik.kind == Keys.Delete && r.ik.seqno <= watermark && job.level + 2 >= o.maxLevels)
  {
    hide *;
    InvIs(o, s, H);
    LiveIs(o, s, H);
    SoundParts(o.fmt, s.files, s.levels, s.nextFile);
    JobSorted(o.fmt, s.files, s.levels, job);
    JobStepGood(o, s, H, job, watermark);
    InputsOnce(o, s, H, job, watermark);
    JobAdded(o, s, job, watermark);
    OutputsExactly(o, job, watermark, s.nextFile, r);
  }

  lemma JobAdded(o: Options, s: State, job: Job, watermark: nat)
    ensures JobStep(o, s, job, watermark).added == Outputs(o, job, watermark, s.nextFile)
  {
    hide Outputs;
  }

  /** A sequence number names one write among the inputs. */
  lemma InputsOnce(o: Options, s: State, H: History, job: Job, watermark: nat)
    requires Inv(o, s, H) && JobOf(s.levels, job)
    ensures OneWritePerSeq(InputSet(job))
  {
    hide *;
    var step := JobStep(o, s, job, watermark);
    InvIs(o, s, H);
    LiveIs(o, s, H);
    CompactFields(o, s, job, watermark);
    JobStepGood(o, s, H, job, watermark);
    GoodParts(step);
    JobTables(step);
    IncreasingUnique(H);
    FaithfulIs(AllSources(s), H);
    SourcesIs(s);
    UnionSplit([Contents(s.mem)] + Frozen(s.imms), TableSources(s.levels));
    InputSetIs(job);
    forall r | r in InputSet(job) ensures r in Contents(H) {
      InLevelSet(job.upper, r);
      InLevelSet(job.lower, r);
      var l := if r in LevelSet(job.upper) then job.level else job.level + 1;
      InLevelSet(s.levels[l], r);
      Scans.TableSourceMembers(s.levels, r);
    }
    SubsetUnique(InputSet(job), Contents(H));
  }

  /** Which files there are afterwards. */
  lemma CompactFiles(o: Options, s: State, H: History, job: Job, watermark: nat, n: nat)
    requires Inv(o, s, H) && JobOf(s.levels, job)
    ensures var s' := CompactJob(o, s, job, watermark);
            n in s'.files <==>
            || (s.nextFile <= n < s'.nextFile)
            || (n in s.files && forall t :: t in job.upper || t in job.lower ==> t.num != n)
  {
    hide *;
    var step := JobStep(o, s, job, watermark);
    InvIs(o, s, H);
    LiveIs(o, s, H);
    CompactFields(o, s, job, watermark);
    JobStepGood(o, s, H, job, watermark);
    GoodParts(step);
    JobTables(step);
    WithTablesAt(o.fmt, s.files, step.added, s.nextFile, n);
    StepFiles(step);
    ObsoleteIs(job, n);
    forall t | t in job.upper || t in job.lower ensures t.num < s.nextFile {
      KeptTable(step, if t in job.upper then job.level else job.level + 1, t);
    }
  }

  lemma StepFiles(s: Step)
    ensures s.NewFiles() == WithTables(s.files, s.added)
  {
  }

  lemma MaybeCompactIs(o: Options, s: State, watermark: nat)
    requires o.Usable() && |s.levels| == o.maxLevels
    ensures MaybeCompact(o, s, watermark) ==
            match Pick(o, s.levels) case None => None case Some(job) => Some(CompactJob(o, s, job, watermark))
  {
  }

  lemma InvLevels(o: Options, s: State, H: History)
    requires Inv(o, s, H)
    ensures |s.levels| == o.maxLevels
  {
  }

  lemma MaybeCompactInv(o: Options, s: State, H: History, watermark: nat)
    requires Inv(o, s, H) && o.Usable()
    ensures |s.levels| == o.maxLevels
    ensures MaybeCompact(o, s, watermark).Some? ==> Inv(o, MaybeCompact(o, s, watermark).value, H)
    ensures MaybeCompact(o, s, watermark).Some? ==> Weight(MaybeCompact(o, s, watermark).value.levels) < Weight(s.levels)
  {
    hide *;
    InvLevels(o, s, H);
    InvIs(o, s, H);
    MaybeCompactIs(o, s, watermark);
    PickJob(o, s.levels);
    var pick := Pick(o, s.levels);
    if pick.Some? {
      CompactJobInv(o, s, H, pick.value, watermark);
      JobStepGood(o, s, H, pick.value, watermark);
      CompactFields(o, s, pick.value, watermark);
      CompactionLightens(JobStep(o, s, pick.value, watermark));
    }
  }

  // ---------------------------------------------------------------- until there is nothing to do

  /** Compact until `maybe_compact` says no. */
  ghost function Settle(o: Options, s: State, H: History, watermark: nat): State
    requires Inv(o, s, H) && o.Usable()
    decreases Weight(s.levels)
  {
    MaybeCompactInv(o, s, H, watermark);
    match MaybeCompact(o, s, watermark)
    case None => s
    case Some(s') => Settle(o, s', H, watermark)
  }

  lemma SettleIs(o: Options, s: State, H: History, watermark: nat)
    requires Inv(o, s, H) && o.Usable()
    ensures |s.levels| == o.maxLevels
    ensures MaybeCompact(o, s, watermark).Some? ==> Inv(o, MaybeCompact(o, s, watermark).value, H)
    ensures Settle(o, s, H, watermark) == match MaybeCompact(o, s, watermark)
                                          case None => s case Some(s') => Settle(o, s', H, watermark)
  {
    hide Inv, MaybeCompact;
    MaybeCompactInv(o, s, H, watermark);
  }

  /** Compaction without writes comes to an end; then L0 is below its trigger and every level
      but the last is within its size limit, and the history still reads the same. */
  lemma {:induction false} SettleEnds(o: Options, s: State, H: History, watermark: nat)
    requires Inv(o, s, H) && o.Usable()
    ensures var end := Settle(o, s, H, watermark);
            && Inv(o, end, H)
            && |end.levels| == o.maxLevels && MaybeCompact(o, end, watermark) == None && WithinLimits(o, end.levels)
    decreases Weight(s.levels)
  {
    hide *;
    UsableLevels(o);
    MaybeCompactInv(o, s, H, watermark);
    SettleIs(o, s, H, watermark);
    MaybeCompactIs(o, s, watermark);
    NothingToPick(o, s.levels);
    if MaybeCompact(o, s, watermark).Some? { SettleEnds(o, MaybeCompact(o, s, watermark).value, H, watermark); }
  }

  lemma UsableLevels(o: Options)
    ensures o.Usable() ==> o.maxLevels >= 2
  {
  }

  lemma CompactLength(o: Options, s: State, job: Job, watermark: nat)
    ensures |CompactJob(o, s, job, watermark).levels| == |s.levels|
  {
    hide Outputs, FromMetas, CollectMetas, Step.Edits, Step.NewFiles;
  }

  /** Up to `n` rounds, as `compact` runs them. */
  function Rounds(o: Options, s: State, watermark: nat, n: nat): State
    requires o.Usable() && |s.levels| == o.maxLevels
    decreases n
  {
    if n == 0 then s
    else
      match MaybeCompact(o, s, watermark)
      case None => s
      case Some(s') =>
        CompactLength(o, s, Pick(o, s.levels).value, watermark);
        Rounds(o, s', watermark, n - 1)
  }

  lemma {:induction false} RoundsInv(o: Options, s: State, H: History, watermark: nat, n: nat)
    requires Inv(o, s, H) && o.Usable()
    ensures |s.levels| == o.maxLevels && Inv(o, Rounds(o, s, watermark, n), H)
    decreases n
  {
    hide *;
    MaybeCompactInv(o, s, H, watermark);
    RoundsIs(o, s, watermark, n);
    if n > 0 && MaybeCompact(o, s, watermark).Some? {
      RoundsInv(o, MaybeCompact(o, s, watermark).value, H, watermark, n - 1);
    }
  }

  lemma RoundsIs(o: Options, s: State, watermark: nat, n: nat)
    requires o.Usable() && |s.levels| == o.maxLevels
    ensures MaybeCompact(o, s, watermark).Some? ==> |MaybeCompact(o, s, watermark).value.levels| == o.maxLevels
    ensures n == 0 || MaybeCompact(o, s, watermark).None? ==> Rounds(o, s, watermark, n) == s
    ensures n > 0 && MaybeCompact(o, s, watermark).Some? ==>
              Rounds(o, s, watermark, n) == Rounds(o, MaybeCompact(o, s, watermark).value, watermark, n - 1)
  {
    hide CompactJob, Pick, Options.Usable;
    MaybeCompactIs(o, s, watermark);
    if Pick(o, s.levels).Some? { CompactLength(o, s, Pick(o, s.levels).value, watermark); }
  }
}
