/** The database object: the methods of src/db.rs over the bytes of its files. */
module Database {
  import opened ByteStrings
  import opened Keys
  import opened Records
  import opened Builder
  import opened Reader
  import opened WriteAheadLog
  import opened ManifestLog
  import opened MemTables
  import opened Versions
  import opened Sources
  import opened Histories
  import opened EngineOptions
  import opened Compaction
  import opened Engine
  import opened EngineInvariant
  import opened EngineFlush
  import opened DbFacts
  import CompactedLevels
  import CompactionRun
  import CompactionSteps
  import EngineCompact
  import Iter
  import Merge
  import Releveling
  import Runs
  import Scans
  import Stalls

  /** What a call returns: its value, or why there is none. */
  datatype Outcome<T> = Done(value: T) | Stalled | Closed | Failed

  class Db {
    const o: Options
    var mem: MemTable
    var imms: seq<seq<Record>>
    var levels: Levels
    var handles: map<nat, SsTable>
    var wal: Wal
    var manifest: Manifest
    var cache: BlockCache
    var nextSeq: nat
    var nextFile: nat
    var snapshots: seq<nat>
    var closed: bool

    /** The bytes of the table files, and the runs those files hold. */
    var dir: Dir
    var files: Files

    /** Every run a file number has stood for since opening. */
    ghost var runs: Files

    /** The writes the database stands for. */
    ghost var H: History

    /** The `Inner` that `open` assembles: nothing frozen, no snapshots, open. */
    constructor (o: Options, mem: MemTable, levels: Levels, handles: map<nat, SsTable>, wal: Wal, manifest: Manifest,
                 cache: BlockCache, nextSeq: nat, nextFile: nat, dir: Dir, files: Files, ghost runs: Files,
                 ghost H: History)
      ensures this.o == o && this.mem == mem && imms == [] && this.levels == levels && this.handles == handles
      ensures this.wal == wal && this.manifest == manifest && this.cache == cache
      ensures this.nextSeq == nextSeq && this.nextFile == nextFile && snapshots == [] && !closed
      ensures this.dir == dir && this.files == files && this.runs == runs && this.H == H
    {
      this.o, this.mem, this.levels, this.handles, this.wal, this.manifest := o, mem, levels, handles, wal, manifest;
      this.cache, this.nextSeq, this.nextFile, this.dir, this.files := cache, nextSeq, nextFile, dir, files;
      this.runs, this.H := runs, H;
      imms, snapshots, closed := [], [], false;
    }

    ghost function View(): State
      reads this, mem, wal, manifest
    {
      State(mem.entries, mem.approxBytes, imms, levels, files, wal.View(), manifest.edits, nextSeq, nextFile)
    }

    ghost predicate Parts()
      reads this, mem, wal, manifest, cache
    {
      && mem.Valid() && wal.Valid() && manifest.Valid()
      && wal.hash == o.fmt.hash && wal.fsync == o.fsync && manifest.hash == o.fmt.hash
      && cache.Bounded() && Coherent(o.fmt, cache.blocks, runs)
      && o.Usable() && |levels| == o.maxLevels
      && RoomFor(o.fmt, H) && nextSeq < U64_MAX
      && FilesHold(o.fmt, dir, files, levels, handles, runs, nextFile)
      && EditsFit(manifest.edits, nextFile, o.maxLevels)
    }

    ghost predicate Valid()
      reads this, mem, wal, manifest, cache
    {
      Parts() && Inv(o, View(), H)
    }

    ghost function Repr(): set<object>
      reads this
    {
      {this, mem, wal, manifest, cache}
    }

    // -------------------------------------------------------------- writing

    method Append(r: Record)
      requires Valid() && IsNext(View(), r) && RoomFor(o.fmt, H + [r]) && r.ik.seqno < U64_MAX
      modifies this`nextSeq, this`H, mem, wal
      ensures Valid() && View() == AppendRecord(o, old(View()), r) && H == old(H) + [r]
    {
      hide Inv, RoomFor, EditsFit, FilesHold, Coherent, Log.Append, Inserted, Cost, Wal.Valid, Manifest.Valid,
          MemTable.Valid;
      AppendInv(o, View(), H, r);
      nextSeq := r.ik.seqno;
      wal.Append(r);
      mem.Put(r);
      H := H + [r];
    }

    method FreezeMem()
      requires Valid()
      modifies this`imms, this`mem, wal
      ensures Valid() && View() == Freeze(o, old(View())) && fresh(mem)
    {
      hide Inv, RoomFor, EditsFit, FilesHold, Coherent, Log.Sync, Wal.Valid, Manifest.Valid, MemTable.Valid;
      FreezeInv(o, View(), H);
      wal.Sync();
      imms := imms + [mem.entries];
      mem := new MemTable();
    }

    /** One round of the write loop. A stalled round changes nothing. */
    method TryWrite(key: bytes, value: bytes, kind: ValueKind) returns (r: Outcome<()>)
      requires Valid() && RoomFor(o.fmt, H + [NewRecord(View(), key, value, kind)]) && nextSeq + 1 < U64_MAX
      modifies this`nextSeq, this`H, this`imms, this`mem, mem, wal
      ensures Valid() && (mem == old(mem) || fresh(mem))
      ensures old(closed) ==> r == Closed && View() == old(View()) && H == old(H)
      ensures !old(closed) ==>
                && View() == Engine.Write(o, old(View()), key, value, kind)
                && r == (if Engine.Stalled(o, old(View())) then Stalled else Done(()))
                && H == if r.Stalled? then old(H) else old(H) + [NewRecord(old(View()), key, value, kind)]
      ensures r.Stalled? ==> nextSeq == old(nextSeq)
      ensures !old(closed) ==> (r.Stalled? <==> |old(imms)| >= 2 || |levels[0]| >= 2 * o.l0Trigger)
      ensures r.Done? ==>
                if old(mem.approxBytes) + |key| + |value| + 16 >= o.memtableBytes
                then |imms| == |old(imms)| + 1 && mem.entries == [] && mem.approxBytes == 0
                else imms == old(imms) && mem.approxBytes == old(mem.approxBytes) + |key| + |value| + 16
    {
      hide Inv, RoomFor, EditsFit, FilesHold, Coherent, Log.Append, Log.Sync, Inserted, Cost, Wal.Valid, Manifest.Valid,
          MemTable.Valid;
      ghost var s := View();
      if closed { return Closed; }
      WriteEffects(o, s, key, value, kind);
      if |imms| >= 2 || |levels[0]| >= o.l0Trigger * 2 { return Stalled; }
      Append(Record(InternalKey(key, nextSeq + 1, kind), value));
      if mem.approxBytes >= o.memtableBytes { FreezeMem(); }
      return Done(());
    }

    /** `write`: rounds until one does not stall, with a turn of the background loop in between. One
        such turn is enough. */
    method Write(key: bytes, value: bytes, kind: ValueKind) returns (r: Outcome<()>)
      requires Valid() && RoomFor(o.fmt, H + [NewRecord(View(), key, value, kind)]) && nextSeq + 1 < U64_MAX
      modifies this`nextSeq, this`H, this`imms, this`mem, this`levels, this`handles, this`dir, this`files, this`runs,
          this`nextFile, this`wal, manifest, cache, mem, wal
      ensures Valid() && (mem == old(mem) || fresh(mem)) && (wal == old(wal) || fresh(wal))
      ensures r == if old(closed) then Closed else Done(())
      ensures H == if old(closed) then old(H) else old(H) + [NewRecord(old(View()), key, value, kind)]
    {
      hide *;
      ghost var s0 := View();
      ViewIs();
      r := TryWrite(key, value, kind);
      while r.Stalled?
        invariant Valid() && closed == old(closed) && (r.Stalled? || r == if closed then Closed else Done(()))
        invariant r.Stalled? ==> !closed && H == old(H) && nextSeq == old(nextSeq)
        invariant !r.Stalled? ==> H == if closed then old(H) else old(H) + [NewRecord(s0, key, value, kind)]
        invariant (mem == old(mem) || fresh(mem)) && (wal == old(wal) || fresh(wal))
        decreases if r.Stalled? then 1 else 0
      {
        ViewIs();
        ghost var s := View();
        ghost var w := Background();
        Unblocked(s, w);
        ViewIs();
        SameRecord(s0, View(), key, value, kind);
        r := TryWrite(key, value, kind);
      }
    }

    lemma Unblocked(s: State, w: nat)
      requires Valid() && Inv(o, s, H) && o.Usable() && |s.levels| == o.maxLevels
      requires |FlushImms(o, s).levels| == o.maxLevels && View() == Stalls.CompactIfAny(o, FlushImms(o, s), w)
      ensures |View().levels| >= 1 && !Engine.Stalled(o, View())
    {
      hide *;
      Stalls.AfterIs(o, s, Stalls.Background(w));
      Stalls.BackgroundUnblocks(o, s, H, w);
    }

    /** `put`: afterwards the key reads as the value and every other key as before. */
    method Put(key: bytes, value: bytes) returns (r: Outcome<()>)
      requires Valid() && nextSeq + 1 < U64_MAX
      requires RoomFor(o.fmt, H + [NewRecord(View(), key, value, ValueKind.Put)])
      modifies this`nextSeq, this`H, this`imms, this`mem, this`levels, this`handles, this`dir, this`files, this`runs,
          this`nextFile, this`wal, manifest, cache, mem, wal
      ensures Valid() && (mem == old(mem) || fresh(mem)) && (wal == old(wal) || fresh(wal))
      ensures r == if old(closed) then Closed else Done(())
      ensures r.Done? ==> ValueOf(LastWrite(H, key)) == Some(value)
      ensures r.Done? ==> forall k :: k != key ==> LastWrite(H, k) == LastWrite(old(H), k)
      ensures r.Closed? ==> H == old(H)
    {
      hide *;
      ghost var s, before := View(), H;
      r := Write(key, value, ValueKind.Put);
      if r.Done? { WriteReads(before, NewRecord(s, key, value, ValueKind.Put)); }
      NewRecordIs(s, key, value, ValueKind.Put);
    }

    /** `delete`: afterwards the key reads as absent and every other key as before. */
    method Delete(key: bytes) returns (r: Outcome<()>)
      requires Valid() && nextSeq + 1 < U64_MAX
      requires RoomFor(o.fmt, H + [NewRecord(View(), key, [], ValueKind.Delete)])
      modifies this`nextSeq, this`H, this`imms, this`mem, this`levels, this`handles, this`dir, this`files, this`runs,
          this`nextFile, this`wal, manifest, cache, mem, wal
      ensures Valid() && (mem == old(mem) || fresh(mem)) && (wal == old(wal) || fresh(wal))
      ensures r == if old(closed) then Closed else Done(())
      ensures r.Done? ==> ValueOf(LastWrite(H, key)) == None
      ensures r.Done? ==> forall k :: k != key ==> LastWrite(H, k) == LastWrite(old(H), k)
      ensures r.Closed? ==> H == old(H)
    {
      hide *;
      ghost var s, before := View(), H;
      r := Write(key, [], ValueKind.Delete);
      if r.Done? { WriteReads(before, NewRecord(s, key, [], ValueKind.Delete)); }
      NewRecordIs(s, key, [], ValueKind.Delete);
    }

    method SyncWal()
      requires Valid()
      modifies wal
      ensures Valid() && View() == SyncLog(o, old(View()))
    {
      hide Inv, RoomFor, EditsFit, FilesHold, Coherent, Log.Sync, Wal.Valid, Manifest.Valid, MemTable.Valid;
      SyncInv(o, View(), H);
      wal.Sync();
    }

    method Close()
      requires Valid()
      modifies this`closed, wal
      ensures Valid() && closed && View() == SyncLog(o, old(View()))
    {
      hide SyncLog, Inv, RoomFor, EditsFit, FilesHold, Coherent, Log.Append, Log.Sync, Wal.Valid, Manifest.Valid,
          MemTable.Valid;
      SyncWal();
      closed := true;
    }

    /** A snapshot is the sequence number of the last write. */
    method Snapshot() returns (r: Outcome<nat>)
      requires Valid()
      modifies this`snapshots
      ensures Valid() && View() == old(View())
      ensures r == if closed then Closed else Done(nextSeq)
      ensures snapshots == if closed then old(snapshots) else old(snapshots) + [nextSeq]
    {
      hide Inv, RoomFor, EditsFit, FilesHold, Coherent, Log.Append, Log.Sync, Wal.Valid, Manifest.Valid, MemTable.Valid;
      if closed { return Closed; }
      snapshots := snapshots + [nextSeq];
      return Done(nextSeq);
    }

    /** A snapshot that is dropped no longer holds the watermark back. */
    method Release(q: nat)
      requires Valid()
      modifies this`snapshots
      ensures Valid() && View() == old(View())
      ensures multiset(snapshots) == multiset(old(snapshots)) - multiset{q}
    {
      hide Inv, RoomFor, EditsFit, FilesHold, Coherent, Wal.Valid, Manifest.Valid, MemTable.Valid, Wal.View;
      snapshots := WithoutOne(snapshots, q);
    }

    // -------------------------------------------------------------- point reads

    /** The newest visible version in memory. */
    method LookupMemory(k: bytes, maxSeq: nat) returns (a: Option<Record>)
      requires Valid()
      ensures a == FirstHit(InMemory(View()), k, maxSeq)
    {
      hide *;
      ghost var s := View();
      ViewIs();
      MemoryInHistory(o, s, H);
      InMemoryIs(s);
      a := mem.Get(k, maxSeq);
      AnsweredBy(Contents(mem.entries), Contents(H), Frozen(imms), k, maxSeq, a);
      if a.Some? { return; }
      var i := |imms|;
      assert imms[..i] == imms;
      while i > 0
        invariant i <= |imms| && a == None
        invariant FirstHit(InMemory(s), k, maxSeq) == FirstHit(Frozen(imms[..i]), k, maxSeq)
      {
        i := i - 1;
        assert imms[i] in imms;
        assert imms[..i + 1] == imms[..i] + [imms[i]];
        FrozenStep(imms[..i], imms[i]);
        ImmBelow(s, i);
        a := Search(imms[i], k, maxSeq);
        AnsweredBy(Contents(imms[i]), Contents(H), Frozen(imms[..i]), k, maxSeq, a);
        if a.Some? { return; }
      }
      assert imms[..0] == [];
      NoFrozen();
      NoHit(k, maxSeq);
    }

    lemma ViewIs()
      requires Valid()
      ensures Parts() && Inv(o, View(), H) && mem.Valid() && nextSeq < U64_MAX && RoomFor(o.fmt, H)
      ensures o.Usable() && |levels| == o.maxLevels >= 2
      ensures cache.Bounded() && Coherent(o.fmt, cache.blocks, runs)
          && FilesHold(o.fmt, dir, files, levels, handles, runs, nextFile)
      ensures Stores(o.fmt, dir, runs) && EditsFit(manifest.edits, nextFile, o.maxLevels)
      ensures View().mem == mem.entries && View().imms == imms && View().levels == levels && View().files == files
      ensures View().nextSeq == nextSeq && View().nextFile == nextFile
    {
      hide Inv, RoomFor, EditsFit, Coherent, Wal.Valid, Manifest.Valid, MemTable.Valid, Stores;
    }

    lemma ImmBelow(s: State, i: nat)
      requires Valid() && s == View() && i < |imms|
      ensures forall r :: r in imms[i] ==> r.ik.seqno < U64_MAX
    {
      ViewIs();
      hide *;
      MemoryInHistory(o, s, H);
      assert imms[i] in imms;
      forall r | r in imms[i] ensures r.ik.seqno < U64_MAX {
        ContentsHas(imms[i], r);
        ContentsHas(H, r);
      }
    }

    /** The open tables that may hold `k`, as `get` takes them before it releases the lock. */
    method TakeTables(k: bytes) returns (tables: seq<SsTable>, ghost taken: seq<Table>)
      requires Valid()
      ensures taken == Candidates(o.fmt, levels, k) && Taken(tables, taken)
      ensures forall i :: 0 <= i < |tables| ==> tables[i].num in dir
    {
      hide *;
      ViewIs();
      forall t | t in levels[0] ensures IsOpen(o.fmt, handles, t) { TableIsOpen(0, t); }
      var found := GetSstablesForKey(levels, handles, o.fmt.hash, k, o.fmt);
      taken := found;
      tables := [];
      for i := 0 to |found|
        invariant |tables| == i
        invariant forall j :: 0 <= j < i ==> TableTaken(tables[j], found[j]) && tables[j].num in dir
      {
        assert found[i] in found;
        CandidateLive(o.fmt, levels, k, found[i]);
        var l: nat :| l < |levels| && found[i] in levels[l];
        TableTakes(l, found[i]);
        tables := tables + [handles[found[i].num]];
      }
      TakenIs(tables, taken);
    }

    lemma TableIsOpen(l: nat, t: Table)
      requires Valid() && l < |levels| && t in levels[l]
      ensures IsOpen(o.fmt, handles, t)
    {
      ViewIs();
      hide *;
      TableHeld(o, View(), H, dir, handles, runs, l, t);
      HandleIs(o.fmt, t);
      IsOpenIs(o.fmt, handles, t);
    }

    lemma TableTakes(l: nat, t: Table)
      requires Valid() && l < |levels| && t in levels[l]
      ensures t.num in handles && TableTaken(handles[t.num], t) && handles[t.num].num in dir
    {
      ViewIs();
      hide *;
      TableHeld(o, View(), H, dir, handles, runs, l, t);
      MemoryInHistory(o, View(), H);
      SubsetUnique(Contents(t.recs), Contents(H));
      TableTakenIs(handles[t.num], t);
    }

    /** `h` is an open table of the run `t` holds, by this database's records. */
    ghost predicate TableTaken(h: SsTable, t: Table)
      reads this
    {
      h.num == t.num && t.num in runs && runs[t.num] == t.recs && Holds(o.fmt, h, t.recs)
          && OneWritePerSeq(Contents(t.recs))
    }

    lemma TableTakenIs(h: SsTable, t: Table)
      ensures TableTaken(h, t) <==>
              h.num == t.num && t.num in runs && runs[t.num] == t.recs && Holds(o.fmt, h, t.recs)
                  && OneWritePerSeq(Contents(t.recs))
    {
    }

    ghost predicate Taken(tables: seq<SsTable>, taken: seq<Table>)
      reads this
    {
      |tables| == |taken| && forall i :: 0 <= i < |taken| ==> TableTaken(tables[i], taken[i])
    }

    lemma TakenIs(tables: seq<SsTable>, taken: seq<Table>)
      ensures Taken(tables, taken) <==> |tables| == |taken| && forall i :: 0 <= i < |taken| ==> TableTaken(tables[i], taken[i])
    {
    }

    /** Tables that were taken stay good through flushes and compactions. */
    twostate lemma StillTaken(tables: seq<SsTable>, taken: seq<Table>)
      requires old(Taken(tables, taken)) && Extends(old(runs), runs)
      ensures Taken(tables, taken)
    {
      hide Holds, OneWritePerSeq;
    }

    /** The cache is no part of what the database stands for. */
    twostate lemma CacheOnly(s: State)
      requires old(Valid()) && s == old(View())
      requires unchanged(this) && unchanged(mem) && unchanged(wal) && unchanged(manifest)
      requires cache.Bounded() && Coherent(o.fmt, cache.blocks, runs)
      ensures Valid() && View() == s
    {
      hide Inv, RoomFor, EditsFit, FilesHold, Coherent, Log.Append, Log.Sync, Wal.Valid, Manifest.Valid, MemTable.Valid;
    }

    /** Probe tables that were taken earlier, possibly before flushes and compactions that the
        lock was released for. Where the file reads succeed the answer is that of the runs the
        tables held when they were taken. */
    method LookupTables(tables: seq<SsTable>, ghost taken: seq<Table>, k: bytes, maxSeq: nat)
      returns (r: Outcome<Option<Record>>)
      requires Valid() && Taken(tables, taken)
      modifies cache
      ensures Valid() && View() == old(View())
      ensures r.Done? || r.Failed?
      ensures r.Done? ==> r.value == FirstHit(RunsOf(taken), k, maxSeq)
      ensures (forall i :: 0 <= i < |tables| ==> tables[i].num in dir) ==> r.Done?
    {
      hide *;
      ghost var s := View();
      ViewIs();
      TakenIs(tables, taken);
      for i := 0 to |tables|
        invariant cache.Bounded() && Coherent(o.fmt, cache.blocks, runs)
        invariant FirstHit(RunsOf(taken), k, maxSeq) == FirstHit(RunsOf(taken[i..]), k, maxSeq)
      {
        ghost var t := taken[i];
        TableTakenIs(tables[i], t);
        var a := Reader.Get(tables[i], cache, dir, k, maxSeq, o.fmt.hash, o.fmt, runs);
        if a.Corrupt? {
          CacheOnly(s);
          return Failed;
        }
        RunsStep(taken[i..]);
        assert taken[i..][1..] == taken[i + 1..];
        AnsweredBy(Contents(t.recs), Contents(t.recs), RunsOf(taken[i + 1..]), k, maxSeq, a.value);
        if a.value.Some? {
          CacheOnly(s);
          return Done(a.value);
        }
      }
      CacheOnly(s);
      assert taken[|taken|..] == [];
      NoRuns();
      NoHit(k, maxSeq);
      return Done(None);
    }

    /** `get_with_seq`: memory first; then, without the lock, the tables. At or past the last
        sequence number it returns the value of the last write of the key. */
    method GetWithSeq(k: bytes, maxSeq: nat) returns (r: Outcome<Option<bytes>>)
      requires Valid()
      modifies cache
      ensures Valid() && View() == old(View())
      ensures closed ==> r == Closed
      ensures !closed ==> r == Done(ValueOf(FirstHit(AllSources(View()), k, maxSeq)))
      ensures !closed && nextSeq <= maxSeq ==> r == Done(ValueOf(LastWrite(H, k)))
    {
      hide *;
      if closed { return Closed; }
      ghost var s := View();
      ViewIs();
      Runs.ProbesAllSources(o, s, H, k, maxSeq);
      if nextSeq <= maxSeq { Runs.ReadsLastWrite(o, s, H, k, maxSeq); }
      var a := LookupMemory(k, maxSeq);
      var tables, taken := TakeTables(k);
      FirstHitSplit(InMemory(s), RunsOf(taken), k, maxSeq);
      if a.Some? { return Done(ValueOf(a)); }
      var b := LookupTables(tables, taken, k, maxSeq);
      return Done(ValueOf(b.value));
    }

    /** `get`: the value of the last write of the key, or nothing if that was a delete. */
    method Get(k: bytes) returns (r: Outcome<Option<bytes>>)
      requires Valid()
      modifies cache
      ensures Valid() && View() == old(View())
      ensures r == if closed then Closed else Done(ValueOf(LastWrite(H, k)))
    {
      hide Valid, View, AllSources, LastWrite;
      ViewIs();
      r := GetWithSeq(k, U64_MAX);
    }

    // -------------------------------------------------------------- scans

    /** The records of a table of the version, read from its file. */
    method ReadTable(t: Table, ghost l: nat) returns (run: seq<Record>)
      requires Valid() && l < |levels| && t in levels[l]
      modifies cache
      ensures Valid() && View() == old(View()) && run == t.recs
    {
      hide *;
      ghost var s := View();
      ViewIs();
      TableHeld(o, s, H, dir, handles, runs, l, t);
      var got := IterAll(handles[t.num], cache, dir, o.fmt, runs);
      CacheOnly(s);
      return got.value;
    }

    method LevelItems(l: nat, bound: Bound, maxSeq: nat) returns (streams: seq<seq<Record>>)
      requires Valid() && l < |levels|
      modifies cache
      ensures Valid() && View() == old(View()) && streams == Scans.LevelStreams(levels[l], bound, maxSeq)
    {
      hide Inv, Valid, View, InRange, Parts;
      streams := [];
      for i := 0 to |levels[l]|
        invariant Valid() && View() == old(View())
        invariant streams == Scans.LevelStreams(levels[l][..i], bound, maxSeq)
      {
        assert levels[l][..i + 1][..i] == levels[l][..i];
        var run := ReadTable(levels[l][i], l);
        streams := streams + [InRange(run, bound, maxSeq)];
      }
      assert levels[l][..|levels[l]|] == levels[l];
    }

    method TableItems(bound: Bound, maxSeq: nat) returns (streams: seq<seq<Record>>)
      requires Valid()
      modifies cache
      ensures Valid() && View() == old(View()) && streams == Scans.TableStreams(levels, bound, maxSeq)
    {
      hide Inv, Valid, View, Scans.LevelStreams, Parts;
      streams := [];
      for l := 0 to |levels|
        invariant Valid() && View() == old(View())
        invariant streams == Scans.TableStreams(levels[..l], bound, maxSeq)
      {
        assert levels[..l + 1][..l] == levels[..l];
        var more := LevelItems(l, bound, maxSeq);
        streams := streams + more;
      }
      assert levels[..|levels|] == levels;
    }

    method MemoryItems(bound: Bound, maxSeq: nat) returns (streams: seq<seq<Record>>)
      requires Valid()
      ensures streams == [Ranged(mem.entries, bound, maxSeq, None)] + Scans.MemStreams(imms, bound, maxSeq)
    {
      hide *;
      ViewIs();
      var first := mem.RangeFrom(bound, maxSeq);
      streams := [first];
      var i := |imms|;
      assert imms[..i] == imms;
      while i > 0
        invariant i <= |imms|
        invariant [first] + Scans.MemStreams(imms, bound, maxSeq)
            == streams + Scans.MemStreams(imms[..i], bound, maxSeq)
      {
        i := i - 1;
        assert imms[..i + 1] == imms[..i] + [imms[i]];
        Scans.MemStreamsStep(imms[..i], imms[i], bound, maxSeq);
        var items := Range(imms[i], bound, maxSeq);
        streams := streams + [items];
      }
      assert imms[..0] == [] && streams + [] == streams;
      Scans.NoMemStreams(bound, maxSeq);
    }

    /** `scan_with_seq`: in strictly increasing key order exactly the pairs past the bound that
        `get_with_seq` returns at the same position. It does not look at `closed`. */
    method ScanWithSeq(bound: Bound, maxSeq: nat) returns (out: seq<(bytes, bytes)>)
      requires Valid()
      modifies cache
      ensures Valid() && View() == old(View())
      ensures forall i, j :: 0 <= i < j < |out| ==> Lt(out[i].0, out[j].0)
      ensures forall k, v :: (k, v) in out <==>
                             PastBound(bound, k) && ValueOf(FirstHit(AllSources(View()), k, maxSeq)) == Some(v)
    {
      hide *;
      ghost var s := View();
      ViewIs();
      var mems := MemoryItems(bound, maxSeq);
      var tables := TableItems(bound, maxSeq);
      var streams := mems + tables;
      Scans.ScanStreamsIs(s, bound, maxSeq);
      var merge := new Iter.MergeIterator.FromSortedStreams(streams, maxSeq, true);
      ghost var pending := merge.pending;
      IteratorRest(merge);
      var items := merge.Collect();
      FilteredIs(pending, streams, maxSeq);
      Scans.ScanAgreesWithGet(o, s, H, bound, maxSeq, pending);
      out := PairsOf(items);
      PairsKeepOrder(items);
      forall k, v ensures (k, v) in out <==> (k, Some(v)) in items { PairsMembers(items, k, v); }
    }

    // -------------------------------------------------------------- flushing

    /** The bytes and the table of a frozen memtable. */
    method BuildTable(run: seq<Record>, num: nat) returns (file: bytes, t: Table)
      requires run != []
      ensures file == TableBytes(o.fmt, run) && t == NewTable(o.fmt, num, run)
    {
      hide TableBytes, SsTableBuilder.Valid;
      var b := new SsTableBuilder(o.fmt);
      for i := 0 to |run|
        invariant fresh(b) && fresh(b.block) && b.Valid() && b.fmt == o.fmt
        invariant b.added == run[..i]
      {
        b.Add(run[i]);
        assert run[..i + 1] == run[..i] + [run[i]];
      }
      assert run[..|run|] == run;
      var meta;
      file, meta := b.Finish();
      t := Table(num, meta.smallest.userKey, meta.largest.userKey, meta.fileSize, run);
    }

    /** Write the oldest frozen memtable to L0, log it in the manifest, open it, and drop it
        from memory. */
    method FlushFirst()
      requires Valid() && imms != [] && imms[0] != []
      modifies this`imms, this`levels, this`handles, this`dir, this`files, this`runs, this`nextFile, manifest
      ensures Valid() && View() == FlushOldest(o, old(View())) && Extends(old(runs), runs)
      ensures dir == old(dir)[old(nextFile) := TableBytes(o.fmt, old(imms)[0])]
    {
      hide *;
      ghost var s := View();
      ViewIs();
      ViewFields(s);
      var run, num := imms[0], nextFile;
      FlushFields(o, s);
      FlushOldestInv(o, s, H);
      FlushHolds(o.fmt, dir, files, levels, handles, runs, num, run);
      FirstFits();
      var file, t := BuildTable(run, num);
      CompactionSteps.NewTableIs(o.fmt, num, run);
      OpenBuilt(o.fmt, run, num, t.smallest, t.largest);
      HandleIs(o.fmt, t);
      CoherentExtends(o.fmt, cache.blocks, runs, runs[num := run]);
      ManifestParts();
      BelowTop(nextSeq);
      FlushEditsFit(o, s, H);
      EditsFitMore(manifest.edits, num, FlushEdits(s, t), num + 1, o.maxLevels);
      manifest.Log([AddFile(MetaOf(0, t)), SetNextFileNum(num + 1), SetLastSeq(nextSeq)]);
      var h := Reader.Open(file, num, t.smallest, t.largest);
      dir, files, handles := dir[num := file], files[num := run], handles[num := h.value];
      levels := levels[0 := levels[0] + [t]];
      runs := runs[num := run];
      nextFile := num + 1;
      imms := imms[1..];
      WithTopDef(s.levels, t);
      Reassemble(FlushOldest(o, s));
    }

    lemma FirstFits()
      requires Valid() && imms != [] && imms[0] != []
      ensures Sorted(imms[0]) && FitsTable(o.fmt, imms[0])
    {
      ViewIs();
      hide *;
      MemoryInHistory(o, View(), H);
      assert imms[0] in imms;
      RoomRun(o.fmt, H, imms[0]);
    }

    lemma ManifestParts()
      requires Valid()
      ensures mem.Valid() && wal.Valid() && manifest.Valid() && manifest.edits == View().edits
          && wal.View() == View().log
      ensures wal.hash == o.fmt.hash && wal.fsync == o.fsync && manifest.hash == o.fmt.hash
    {
      hide Inv, RoomFor, EditsFit, FilesHold, Coherent, MemTable.Valid, Wal.Valid, Manifest.Valid;
    }

    /** After a change the parts and the state together make the database valid. */
    lemma Reassemble(s: State)
      requires mem.Valid() && wal.Valid() && manifest.Valid()
      requires wal.hash == o.fmt.hash && wal.fsync == o.fsync && manifest.hash == o.fmt.hash
      requires cache.Bounded() && Coherent(o.fmt, cache.blocks, runs)
      requires o.Usable() && |levels| == o.maxLevels && RoomFor(o.fmt, H) && nextSeq < U64_MAX
      requires FilesHold(o.fmt, dir, files, levels, handles, runs, nextFile)
      requires Inv(o, s, H) && EditsFit(manifest.edits, nextFile, o.maxLevels)
      requires s == State(mem.entries, mem.approxBytes, imms, levels, files, wal.View(), manifest.edits, nextSeq,
          nextFile)
      ensures Valid() && View() == s
    {
      hide Inv, RoomFor, EditsFit, FilesHold, Coherent, MemTable.Valid, Wal.Valid, Manifest.Valid, Wal.View,
          Options.Usable;
    }

    lemma ViewFields(s: State)
      requires s == View()
      ensures s == State(mem.entries, mem.approxBytes, imms, levels, files, wal.View(), manifest.edits, nextSeq,
          nextFile)
    {
    }

    /** One round of `flush_imms`: the log is started afresh once memory is empty. */
    method FlushOneRound()
      requires Valid() && imms != []
      modifies this`imms, this`levels, this`handles, this`dir, this`files, this`runs, this`nextFile, this`wal, manifest
      ensures Valid() && View() == FlushRound(o, old(View())) && Extends(old(runs), runs)
      ensures wal == old(wal) || fresh(wal)
    {
      hide *;
      ghost var s := View();
      ViewIs();
      ViewFields(s);
      ManifestParts();
      ExtendsIs(runs, runs);
      FlushRoundIs(o, s);
      FlushOldestInv(o, s, H);
      if imms[0] == [] {
        FlushEmptyIs(o, s);
        imms := imms[1..];
        Reassemble(FlushOldest(o, s));
        return;
      }
      FlushFirst();
      ViewIs();
      ViewFields(View());
      if imms == [] && mem.entries == [] {
        RecreateLogInv(o, View(), H);
        RecreateIs(View());
        ManifestParts();
        wal := new Wal.Create(o.fmt.hash, o.fsync);
        Reassemble(RecreateLog(FlushOldest(o, s)));
      }
    }

    method FlushAllImms()
      requires Valid()
      modifies this`imms, this`levels, this`handles, this`dir, this`files, this`runs, this`nextFile, this`wal, manifest
      ensures Valid() && View() == FlushImms(o, old(View())) && Extends(old(runs), runs)
      ensures wal == old(wal) || fresh(wal)
    {
      hide *;
      ViewIs();
      ghost var s := View();
      ExtendsIs(runs, runs);
      while imms != []
        invariant Valid() && |View().levels| >= 1 && FlushImms(o, View()) == FlushImms(o, s)
        invariant Extends(old(runs), runs)
        invariant wal == old(wal) || fresh(wal)
        decreases |imms|
      {
        ghost var before := View();
        ghost var runs0 := runs;
        ViewIs();
        FlushImmsIs(o, before);
        FlushRoundIs(o, before);
        FlushOneRound();
        ViewIs();
        ExtendsTrans(old(runs), runs0, runs);
      }
      ViewIs();
      FlushImmsIs(o, View());
    }

    /** `flush`: freeze what is in memory and write everything frozen to L0. */
    method Flush()
      requires Valid()
      modifies this`imms, this`mem, this`levels, this`handles, this`dir, this`files, this`runs, this`nextFile,
          this`wal, manifest, wal
      ensures Valid() && View() == Engine.Flush(o, old(View())) && Extends(old(runs), runs)
      ensures old(mem.entries) != [] ==> wal.View() == Log([], 0, 0, None)
      ensures (wal == old(wal) || fresh(wal)) && (mem == old(mem) || fresh(mem))
    {
      hide *;
      ViewIs();
      FlushIs(o, View());
      FlushRestarts(o, View());
      if mem.entries != [] { FreezeMem(); }
      FlushAllImms();
      ManifestParts();
    }

    // -------------------------------------------------------------- compaction

    /** The oldest live snapshot, or the largest sequence number there is. */
    method Watermark() returns (w: nat)
      ensures IsWatermark(snapshots, w)
    {
      if snapshots == [] { return U64_MAX; }
      w := snapshots[0];
      for i := 1 to |snapshots|
        invariant w in snapshots && forall j :: 0 <= j < i ==> w <= snapshots[j]
      {
        if snapshots[i] < w { w := snapshots[i]; }
      }
    }

    /** The inputs of a job, read from their files: upper newest first, then lower. */
    method ReadStreams(job: Job) returns (streams: seq<seq<Record>>)
      requires Valid() && job.level + 1 < |levels|
      requires (forall t :: t in job.upper ==> t in levels[job.level]) && (forall t :: t in job.lower ==> t in levels[job.level + 1])
      modifies cache
      ensures Valid() && View() == old(View()) && streams == Streams(job)
    {
      hide Valid, View, Parts;
      streams := [];
      var i := |job.upper|;
      assert job.upper[..i] == job.upper;
      while i > 0
        invariant Valid() && View() == old(View())
        invariant i <= |job.upper| && RunsNewestFirst(job.upper) == streams + RunsNewestFirst(job.upper[..i])
      {
        i := i - 1;
        assert job.upper[..i + 1][..i] == job.upper[..i];
        assert job.upper[i] in job.upper;
        var run := ReadTable(job.upper[i], job.level);
        streams := streams + [run];
      }
      assert job.upper[..0] == [] && streams + [] == streams;
      ghost var ups := streams;
      assert job.lower[0..] == job.lower;
      for j := 0 to |job.lower|
        invariant Valid() && View() == old(View())
        invariant ups + RunsInOrder(job.lower) == streams + RunsInOrder(job.lower[j..])
      {
        assert job.lower[j..][1..] == job.lower[j + 1..];
        assert job.lower[j] in job.lower;
        var run := ReadTable(job.lower[j], job.level + 1);
        streams := streams + [run];
      }
      assert job.lower[|job.lower|..] == [] && streams + [] == streams;
    }

    /** The version after the edits, its open tables, and the directory with the output files. */
    method Rebuild(job: Job, tables: seq<Table>, contents: seq<bytes>, edits: seq<Edit>, ghost watermark: nat)
      returns (v: Levels, hs: map<nat, SsTable>, files1: Files, dir1: Dir)
      requires Valid() && Releveling.JobOf(levels, job)
      requires tables == EngineCompact.JobStep(o, View(), job, watermark).added
      requires |contents| == |tables| && forall i :: 0 <= i < |tables| ==> contents[i] == TableBytes(o.fmt, tables[i].recs)
      requires edits == EngineCompact.JobStep(o, View(), job, watermark).Edits()
      ensures var s' := CompactJob(o, View(), job, watermark);
              && v == s'.levels && files1 - Obsolete(job) == s'.files
              && FilesHold(o.fmt, dir1 - Obsolete(job), s'.files, v, hs, Releveling.WithTables(runs, tables),
                  s'.nextFile)
      ensures Extends(runs, Releveling.WithTables(runs, tables)) && dir1 == DirWith(dir, tables, contents)
    {
      hide *;
      ghost var s := View();
      ViewIs();
      JobFacts(s, job, watermark);
      ghost var step, s' := EngineCompact.JobStep(o, s, job, watermark), CompactJob(o, s, job, watermark);
      var metas := CollectMetas(levels);
      metas := EditMetas(metas, edits);
      files1, dir1 := AddOutputs(files, dir, tables, contents);
      Runs.NewFilesIs(step);
      NewLevelsAre(step, metas);
      v := BuildFromMetas(o.fmt, files1, metas, o.maxLevels);
      InstalledMetas(o, s, H, job, watermark, dir, handles, runs, contents, metas);
      var opened' := OpenListed(o.fmt, dir1, s'.files, metas);
      hs := opened'.value;
      CompactHolds(o, s, H, job, watermark, dir, handles, runs, contents, metas, hs);
    }

    /** Log the edits, apply them to the version in memory, reopen it, remove the input files. */
    method Install(job: Job, tables: seq<Table>, contents: seq<bytes>, ghost watermark: nat)
      requires Valid() && Releveling.JobOf(levels, job)
      requires tables == EngineCompact.JobStep(o, View(), job, watermark).added
      requires |contents| == |tables| && forall i :: 0 <= i < |tables| ==> contents[i] == TableBytes(o.fmt, tables[i].recs)
      modifies this`levels, this`handles, this`dir, this`files, this`runs, this`nextFile, manifest
      ensures Valid() && View() == CompactJob(o, old(View()), job, watermark) && Extends(old(runs), runs)
      ensures DirAfter(old(dir), dir, job, old(nextFile), nextFile)
    {
      hide *;
      ghost var s := View();
      ViewIs();
      ViewFields(s);
      ManifestParts();
      ghost var step, s' := EngineCompact.JobStep(o, s, job, watermark), CompactJob(o, s, job, watermark);
      JobFacts(s, job, watermark);
      InputsRemoved(step, dir, contents);
      var next := nextFile + |tables|;
      var edits := CompactionRun.BuildEdits(job, tables);
      edits := edits + [SetNextFileNum(next)];
      StepEdits(step, edits);
      var v, hs, files1, dir1 := Rebuild(job, tables, contents, edits, watermark);
      ghost var runs' := Releveling.WithTables(runs, tables);
      CoherentExtends(o.fmt, cache.blocks, runs, runs');
      CompactEditsFit(o, s, H, job, watermark);
      EditsFitMore(manifest.edits, nextFile, edits, next, o.maxLevels);
      manifest.Log(edits);
      levels, handles, nextFile := v, hs, next;
      files, dir, runs := files1 - Obsolete(job), dir1 - Obsolete(job), runs';
      Reassemble(s');
    }

    lemma JobFacts(s: State, job: Job, watermark: nat)
      requires Valid() && s == View() && Releveling.JobOf(levels, job)
      ensures Inv(o, s, H) && Inv(o, CompactJob(o, s, job, watermark), H)
      ensures |CompactJob(o, s, job, watermark).levels| == o.maxLevels
      ensures forall t, u :: t in job.upper && u in job.lower ==> t.num != u.num
      ensures var step, s' := EngineCompact.JobStep(o, s, job, watermark), CompactJob(o, s, job, watermark);
              && s' == s.(levels := step.NewLevels(), files := step.NewFiles() - Obsolete(job),
                          edits := s.edits + step.Edits(), nextFile := s.nextFile + |step.added|)
              && step.fmt == o.fmt && step.files == s.files && step.levels == s.levels && step.next == s.nextFile
                  && step.job == job
              && step.Good()
    {
      ViewIs();
      hide *;
      InvIs(o, s, H);
      EngineCompact.CompactFields(o, s, job, watermark);
      EngineCompact.JobStepGood(o, s, H, job, watermark);
      EngineCompact.CompactJobInv(o, s, H, job, watermark);
      EngineCompact.CompactLength(o, s, job, watermark);
      InputsDiffer(EngineCompact.JobStep(o, s, job, watermark));
    }

    /** `maybe_compact`. */
    method MaybeCompact() returns (did: bool, ghost watermark: nat)
      requires Valid()
      modifies this`levels, this`handles, this`dir, this`files, this`runs, this`nextFile, manifest, cache
      ensures Valid() && Extends(old(runs), runs)
      ensures var next := Engine.MaybeCompact(o, old(View()), watermark);
              did == next.Some? && View() == if did then next.value else old(View())
      ensures IsWatermark(snapshots, watermark)
      ensures did ==> |old(levels)| == o.maxLevels && Pick(o, old(levels)).Some?
                      && DirAfter(old(dir), dir, Pick(o, old(levels)).value, old(nextFile), nextFile)
      ensures !did ==> dir == old(dir)
    {
      hide *;
      ghost var s := View();
      ViewIs();
      ExtendsIs(runs, runs);
      var w := Watermark();
      watermark := w;
      EngineCompact.MaybeCompactIs(o, s, w);
      Releveling.PickJob(o, levels);
      var pick := PickCompaction(o, levels);
      if pick.None? { return false, w; }
      var job := pick.value;
      JobFacts(s, job, w);
      CompactedLevels.GoodParts(EngineCompact.JobStep(o, s, job, w));
      CompactedLevels.JobTables(EngineCompact.JobStep(o, s, job, w));
      var streams := ReadStreams(job);
      StepAdded(o, s, job, w);
      var tables, contents := CompactionRun.RunCompaction(o, job, streams, w, nextFile);
      Install(job, tables, contents, w);
      return true, w;
    }

    /** One turn of the background loop. */
    method Background() returns (ghost watermark: nat)
      requires Valid()
      modifies this`imms, this`levels, this`handles, this`dir, this`files, this`runs, this`nextFile, this`wal,
          manifest, cache
      ensures Valid() && H == old(H) && Extends(old(runs), runs) && IsWatermark(snapshots, watermark)
      ensures |FlushImms(o, old(View())).levels| == o.maxLevels
      ensures View() == Stalls.CompactIfAny(o, FlushImms(o, old(View())), watermark)
      ensures wal == old(wal) || fresh(wal)
    {
      hide *;
      ViewIs();
      FlushAllImms();
      ghost var runs0, s := runs, View();
      ViewIs();
      var did;
      did, watermark := MaybeCompact();
      Stalls.CompactIfAnyIs(o, s, watermark);
      ExtendsTrans(old(runs), runs0, runs);
    }

    /** `compact`: flush, then up to 64 rounds. */
    method Compact() returns (ghost watermark: nat)
      requires Valid()
      modifies this`imms, this`mem, this`levels, this`handles, this`dir, this`files, this`runs, this`nextFile,
          this`wal, manifest, wal, cache
      ensures Valid() && H == old(H) && Extends(old(runs), runs) && IsWatermark(snapshots, watermark)
      ensures |Engine.Flush(o, old(View())).levels| == o.maxLevels
      ensures View() == EngineCompact.Rounds(o, Engine.Flush(o, old(View())), watermark, 64)
      ensures (wal == old(wal) || fresh(wal)) && (mem == old(mem) || fresh(mem))
    {
      hide *;
      Flush();
      ViewIs();
      ghost var start := View();
      watermark := Watermark();
      for i := 0 to 64
        invariant Valid() && H == old(H) && snapshots == old(snapshots) && Extends(old(runs), runs)
        invariant |View().levels| == o.maxLevels
        invariant EngineCompact.Rounds(o, start, watermark, 64) == EngineCompact.Rounds(o, View(), watermark, 64 - i)
        invariant (wal == old(wal) || fresh(wal)) && (mem == old(mem) || fresh(mem))
      {
        ghost var runs0, s := runs, View();
        var did;
        ghost var w;
        did, w := MaybeCompact();
        ViewIs();
        SameWatermark(snapshots, w, watermark);
        EngineCompact.RoundsIs(o, s, watermark, 64 - i);
        ExtendsTrans(old(runs), runs0, runs);
        if !did { return; }
      }
      EngineCompact.RoundsIs(o, View(), watermark, 0);
    }
  }

  lemma NewRecordIs(s: State, key: bytes, value: bytes, kind: ValueKind)
    ensures NewRecord(s, key, value, kind).ik.userKey == key && NewRecord(s, key, value, kind).value == value
    ensures NewRecord(s, key, value, kind).ik.kind == kind
  {
  }

  lemma SameRecord(s: State, s': State, key: bytes, value: bytes, kind: ValueKind)
    requires s'.nextSeq == s.nextSeq
    ensures NewRecord(s', key, value, kind) == NewRecord(s, key, value, kind)
  {
  }

  /** A new write decides about its key and no other. */
  lemma WriteReads(H: History, r: Record)
    ensures ValueOf(LastWrite(H + [r], r.ik.userKey)) == if r.ik.kind == ValueKind.Put then Some(r.value) else None
    ensures forall k :: k != r.ik.userKey ==> LastWrite(H + [r], k) == LastWrite(H, k)
  {
    hide LastWrite;
    forall k ensures LastWrite(H + [r], k) == if r.ik.userKey == k then Some(r) else LastWrite(H, k) {
      LastWriteStep(H, r, k);
    }
  }

  /** The least live snapshot, or the largest sequence number when there is none. */
  ghost predicate IsWatermark(snapshots: seq<nat>, w: nat) {
    if snapshots == [] then w == U64_MAX else w in snapshots && forall q :: q in snapshots ==> w <= q
  }

  lemma SameWatermark(snapshots: seq<nat>, a: nat, b: nat)
    requires IsWatermark(snapshots, a) && IsWatermark(snapshots, b)
    ensures a == b
  {
  }

  lemma IteratorRest(it: Iter.MergeIterator)
    requires it.Valid() && it.lastUser == None && it.skipTombstones
    ensures it.Rest() == Iter.Yields(Merge.MergeAll(it.pending), None, true)
  {
  }

  // ---------------------------------------------------------------- pieces of a compaction

  /** Edits applied to the collected metadata, as `maybe_compact` does in memory. */
  method EditMetas(metas: seq<FileMeta>, edits: seq<Edit>) returns (out: seq<FileMeta>)
    ensures out == ApplyAll(Catalog(metas, 0, 0), edits).files
  {
    hide Retain;
    out := metas;
    for i := 0 to |edits|
      invariant out == ApplyAll(Catalog(metas, 0, 0), edits[..i]).files
    {
      assert edits[..i + 1][..i] == edits[..i];
      match edits[i] {
        case AddFile(m) => out := out + [m];
        case DeleteFile(level, num) => out := Retain(out, level, num);
        case _ =>
      }
    }
    assert edits[..|edits|] == edits;
  }

  method AddOutputs(files: Files, dir: Dir, tables: seq<Table>, contents: seq<bytes>) returns (files': Files, dir': Dir)
    requires |contents| == |tables|
    ensures files' == Releveling.WithTables(files, tables) && dir' == DirWith(dir, tables, contents)
  {
    files', dir' := files, dir;
    for i := 0 to |tables|
      invariant files' == Releveling.WithTables(files, tables[..i]) && dir' == DirWith(dir, tables[..i], contents[..i])
    {
      assert tables[..i + 1][..i] == tables[..i] && contents[..i + 1][..i] == contents[..i];
      files', dir' := files'[tables[i].num := tables[i].recs], dir'[tables[i].num := contents[i]];
    }
    assert tables[..|tables|] == tables && contents[..|contents|] == contents;
  }

  lemma IsOpenIs(fmt: Format, handles: map<nat, SsTable>, t: Table)
    requires t.num in handles && handles[t.num] == TableOf(fmt, t.recs, t.num, t.smallest, t.largest)
    ensures Holds(fmt, handles[t.num], t.recs) ==> IsOpen(fmt, handles, t)
  {
    hide Holds, TableBytes, Index, ChunksOf, FilterOf;
  }

  lemma HandleIs(fmt: Format, t: Table)
    ensures HandleOf(fmt, t) == TableOf(fmt, t.recs, t.num, t.smallest, t.largest)
  {
  }

  lemma WithTopDef(levels: Levels, t: Table)
    requires |levels| >= 1
    ensures WithTop(levels, t) == levels[0 := levels[0] + [t]]
  {
  }

  lemma ExtendsTrans(a: Files, b: Files, c: Files)
    requires Extends(a, b) && Extends(b, c)
    ensures Extends(a, c)
  {
  }

  lemma StepEdits(s: CompactedLevels.Step, edits: seq<Edit>)
    requires edits == AddEdits(s.job.level + 1, s.added)
        + (DeleteEdits(s.job.level, s.job.upper) + DeleteEdits(s.job.level + 1, s.job.lower))
                      + [SetNextFileNum(s.next + |s.added|)]
    ensures edits == s.Edits()
  {
    hide AddEdits, DeleteEdits;
  }

  lemma StepAdded(o: Options, s: State, job: Job, watermark: nat)
    ensures EngineCompact.JobStep(o, s, job, watermark).added == CompactionSteps.Outputs(o, job, watermark, s.nextFile)
  {
    hide CompactionSteps.Outputs;
  }

  lemma NewLevelsAre(s: CompactedLevels.Step, metas: seq<FileMeta>)
    requires metas == ApplyAll(Catalog(CollectMetas(s.levels), 0, 0), s.Edits()).files
    ensures s.NewLevels() == FromMetas(s.fmt, s.NewFiles(), metas, |s.levels|)
  {
    hide *;
    CompactedLevels.StepParts(s);
  }

  /** The metadata after the edits lists the new version's tables, and they can be opened. */
  lemma InstalledMetas(o: Options, s: State, H: History, job: Job, watermark: nat, dir: Dir,
                       handles: map<nat, SsTable>, runs: Files,
                       contents: seq<bytes>, metas: seq<FileMeta>)
    requires Inv(o, s, H) && RoomFor(o.fmt, H) && Releveling.JobOf(s.levels, job)
    requires FilesHold(o.fmt, dir, s.files, s.levels, handles, runs, s.nextFile)
    requires var step := EngineCompact.JobStep(o, s, job, watermark);
             && |contents| == |step.added| && (forall i :: 0 <= i < |step.added| ==> contents[i] == TableBytes(o.fmt, step.added[i].recs))
             && metas == ApplyAll(Catalog(CollectMetas(s.levels), 0, 0), step.Edits()).files
    ensures SameFiles(metas, CompactJob(o, s, job, watermark).levels)
    ensures Listable(o.fmt, DirWith(dir, EngineCompact.JobStep(o, s, job, watermark).added, contents),
                     CompactJob(o, s, job, watermark).files, metas)
  {
    hide *;
    var step, s' := EngineCompact.JobStep(o, s, job, watermark), CompactJob(o, s, job, watermark);
    var dir1 := DirWith(dir, step.added, contents);
    InvIs(o, s, H);
    EngineCompact.CompactFields(o, s, job, watermark);
    EngineCompact.JobStepGood(o, s, H, job, watermark);
    EngineCompact.CompactJobInv(o, s, H, job, watermark);
    CompactedLevels.GoodParts(step);
    Releveling.CollectDistinct(o.fmt, s.files, s.levels, s.nextFile);
    CompactedLevels.CatalogFollows(step, Catalog(CollectMetas(s.levels), 0, 0));
    FilesHoldIs(o.fmt, dir, s.files, s.levels, handles, runs, s.nextFile);
    BytesOfIs(o.fmt, dir, s.files);
    Runs.NewFilesIs(step);
    DirWithHolds(o.fmt, dir, s.files, runs, step.added, contents);
    BytesOfIs(o.fmt, dir1, step.NewFiles());
    BytesOfIs(o.fmt, dir1, s'.files);
    VersionListable(o, s', H, dir1, metas);
  }

  /** Inputs of the two levels have different numbers. */
  lemma InputsDiffer(s: CompactedLevels.Step)
    requires s.Good()
    ensures forall t, u :: t in s.job.upper && u in s.job.lower ==> t.num != u.num
  {
    hide *;
    CompactedLevels.GoodParts(s);
    CompactedLevels.JobTables(s);
    SoundFacts(s.fmt, s.files, s.levels, s.next);
  }

  lemma FilteredIs(pending: seq<seq<Record>>, streams: seq<seq<Record>>, maxSeq: nat)
    requires |pending| == |streams| && forall i :: 0 <= i < |streams| ==> pending[i] == VisibleOnly(streams[i], maxSeq)
    ensures Scans.Filtered(pending, streams, maxSeq)
  {
  }

  /** The first occurrence removed, as `SnapshotTracker::release` does it. */
  method WithoutOne(s: seq<nat>, q: nat) returns (out: seq<nat>)
    ensures multiset(out) == multiset(s) - multiset{q}
  {
    for i := 0 to |s|
      invariant q !in s[..i]
    {
      if s[i] == q {
        SwapRemoved(s, i);
        return s[i := s[|s| - 1]][..|s| - 1];
      }
    }
    assert s[..|s|] == s;
    return s;
  }

  /** `swap_remove`: the last element takes the place of the removed one. */
  lemma SwapRemoved(s: seq<nat>, i: nat)
    requires i < |s|
    ensures multiset(s[i := s[|s| - 1]][..|s| - 1]) == multiset(s) - multiset{s[i]}
  {
    var n := |s| - 1;
    var t := s[i := s[n]];
    assert s == s[..n] + [s[n]];
    assert t[..n] == if i == n then s[..n] else s[..n][i := s[n]];
  }

  /** Drop the items without a value and unwrap the others. */
  function PairsOf(items: seq<Iter.Item>): seq<(bytes, bytes)> {
    if items == [] then []
    else
      PairsOf(items[..|items| - 1])
      + (match items[|items| - 1].1 case Some(v) => [(items[|items| - 1].0, v)] case None => [])
  }

  lemma {:induction false} PairsMembers(items: seq<Iter.Item>, k: bytes, v: bytes)
    ensures (k, v) in PairsOf(items) <==> (k, Some(v)) in items
  {
    if items != [] {
      PairsMembers(items[..|items| - 1], k, v);
      assert items == items[..|items| - 1] + [items[|items| - 1]];
    }
  }

  lemma {:induction false} PairsKeepOrder(items: seq<Iter.Item>)
    requires Iter.ItemKeysIncrease(items)
    ensures forall i, j :: 0 <= i < j < |PairsOf(items)| ==> Lt(PairsOf(items)[i].0, PairsOf(items)[j].0)
  {
    if items != [] {
      hide Lt;
      var front, last := items[..|items| - 1], items[|items| - 1];
      PairsKeepOrder(front);
      forall p | p in PairsOf(front) ensures Lt(p.0, last.0) {
        PairsMembers(front, p.0, p.1);
        var i :| 0 <= i < |front| && front[i] == (p.0, Some(p.1));
        assert items[i] == front[i];
      }
    }
  }
}
