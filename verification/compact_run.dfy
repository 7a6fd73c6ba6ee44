/** `run_compaction` as it runs: a heap over the input streams, one table builder at a time
    (src/compact.rs 103-211). */
module CompactionRun {
  import opened ByteStrings
  import opened Keys
  import opened Records
  import opened Merge
  import opened Builder
  import opened ManifestLog
  import opened Versions
  import opened EngineOptions
  import opened Compaction
  import opened CompactionSteps
  import MemTables

  // ---------------------------------------------------------------- the heap and the streams

  /** The heap holds the head of every stream; the iterators stand behind the heads. */
  ghost predicate InStep(heap: seq<HeapItem>, iters: seq<seq<Record>>, pending: seq<seq<Record>>) {
    && HoldsHeads(heap, pending)
    && |iters| == |pending|
    && forall i :: 0 <= i < |iters| ==> iters[i] == if pending[i] == [] then [] else pending[i][1..]
  }

  method Prime(streams: seq<seq<Record>>) returns (heap: seq<HeapItem>, iters: seq<seq<Record>>)
    ensures InStep(heap, iters, streams)
  {
    heap, iters := [], [];
    for i := 0 to |streams|
      invariant InStep(heap, iters, streams[..i])
    {
      assert streams[..i + 1] == streams[..i] + [streams[i]];
      Primed(heap, iters, streams[..i], streams[i]);
      if streams[i] != [] {
        heap := heap + [HeapItem(streams[i][0], i)];
        iters := iters + [streams[i][1..]];
      } else {
        iters := iters + [[]];
      }
    }
    assert streams[..|streams|] == streams;
  }

  lemma Primed(heap: seq<HeapItem>, iters: seq<seq<Record>>, pending: seq<seq<Record>>, s: seq<Record>)
    requires InStep(heap, iters, pending)
    ensures InStep(if s == [] then heap else heap + [HeapItem(s[0], |pending|)],
                   iters + [if s == [] then [] else s[1..]], pending + [s])
  {
    var h, p := if s == [] then heap else heap + [HeapItem(s[0], |pending|)], pending + [s];
    forall i | 0 <= i < |p| && p[i] != [] ensures HeapItem(p[i][0], i) in h {
      if i < |pending| {
        assert HeapItem(pending[i][0], i) in heap;
      } else {
        assert h[|h| - 1] == HeapItem(p[i][0], i);
      }
    }
  }

  method PopNext(heap: seq<HeapItem>, iters: seq<seq<Record>>, ghost pending: seq<seq<Record>>)
    returns (r: Record, heap': seq<HeapItem>, iters': seq<seq<Record>>, ghost pending': seq<seq<Record>>)
    requires InStep(heap, iters, pending) && heap != []
    ensures InStep(heap', iters', pending')
    ensures MergeAll(pending) == [r] + MergeAll(pending')
  {
    hide *;
    HeapIs(heap, iters, pending);
    var item, rest := Pop(heap);
    var src := item.source;
    PopIsMinHead(heap, pending, item);
    Stepped(heap, iters, pending, item, rest);
    Popped(pending, src);
    pending' := pending[src := pending[src][1..]];
    heap' := rest;
    iters' := iters;
    if iters[src] != [] {
      heap' := heap' + [HeapItem(iters[src][0], src)];
      iters' := iters'[src := iters[src][1..]];
    }
    r := item.rec;
  }

  lemma HeapIs(heap: seq<HeapItem>, iters: seq<seq<Record>>, pending: seq<seq<Record>>)
    requires InStep(heap, iters, pending)
    ensures HoldsHeads(heap, pending) && |iters| == |pending|
    ensures forall a, b :: 0 <= a < b < |heap| ==> heap[a].source != heap[b].source
    ensures forall x :: x in heap ==> x.source < |pending| && pending[x.source] != [] && x.rec == pending[x.source][0]
  {
  }

  lemma Stepped(heap: seq<HeapItem>, iters: seq<seq<Record>>, pending: seq<seq<Record>>, item: HeapItem,
      rest: seq<HeapItem>)
    requires InStep(heap, iters, pending) && item.source < |pending| && pending[item.source] != []
    requires exists n :: 0 <= n < |heap| && heap[n] == item && rest == heap[..n] + heap[n + 1..]
    ensures var src := item.source;
            InStep(if iters[src] == [] then rest else rest + [HeapItem(iters[src][0], src)],
                   if iters[src] == [] then iters else iters[src := iters[src][1..]], pending[src := pending[src][1..]])
  {
    hide PopsBefore, KeyLt;
    var src := item.source;
    var n :| 0 <= n < |heap| && heap[n] == item && rest == heap[..n] + heap[n + 1..];
    Refilled(heap, pending, n, item, if iters[src] == [] then rest else rest + [HeapItem(iters[src][0], src)]);
  }

  lemma Popped(pending: seq<seq<Record>>, i: nat)
    requires MinHead(pending, |pending|) == Some(i)
    ensures MergeAll(pending) == [pending[i][0]] + MergeAll(pending[i := pending[i][1..]])
  {
  }

  // ---------------------------------------------------------------- what is left to write

  /** The files still to come when `rest` is unread, `last` is the last key seen and `cur`, of
      estimated size `size`, is in the builder. */
  function ToCome(rest: seq<Record>, last: Option<bytes>, cur: seq<Record>, size: nat, lastLevel: bool,
      watermark: nat, target: nat)
    : seq<seq<Record>>
  {
    SplitFrom(DropTombstones(FirstPerKey(rest, last), lastLevel, watermark), cur, size, target)
  }

  lemma ComesNext(r: Record, rest: seq<Record>, last: Option<bytes>, cur: seq<Record>, size: nat, lastLevel: bool,
      watermark: nat, target: nat)
    ensures var now := (if cur == [] then 0 else size) + MemTables.Cost(r);
            var all := ToCome([r] + rest, last, cur, size, lastLevel, watermark, target);
            if last == Some(r.ik.userKey) then all == ToCome(rest, last, cur, size, lastLevel, watermark, target)
            else if Drops(r, lastLevel, watermark) then all == ToCome(rest, Some(r.ik.userKey), cur, size, lastLevel, watermark, target)
            else if now >= target then
              all == [cur + [r]] + ToCome(rest, Some(r.ik.userKey), [], now, lastLevel, watermark, target)
            else all == ToCome(rest, Some(r.ik.userKey), cur + [r], now, lastLevel, watermark, target)
  {
    hide Drops, MemTables.Cost, SplitFrom;
    assert ([r] + rest)[1..] == rest;
    if last != Some(r.ik.userKey) {
      var f := FirstPerKey(rest, Some(r.ik.userKey));
      var d := DropTombstones(f, lastLevel, watermark);
      assert ([r] + f)[1..] == f;
      if Drops(r, lastLevel, watermark) {
        assert [] + d == d;
      } else {
        SplitStep(r, d, cur, size, target);
      }
    }
  }

  lemma SplitStep(r: Record, d: seq<Record>, cur: seq<Record>, size: nat, target: nat)
    ensures var now := (if cur == [] then 0 else size) + MemTables.Cost(r);
            SplitFrom([r] + d, cur, size, target) == if now >= target then [cur + [r]] + SplitFrom(d, [], now, target)
                                                     else SplitFrom(d, cur + [r], now, target)
  {
    hide MemTables.Cost;
    assert ([r] + d)[1..] == d;
  }

  lemma NothingToCome(last: Option<bytes>, cur: seq<Record>, size: nat, lastLevel: bool, watermark: nat, target: nat)
    ensures ToCome([], last, cur, size, lastLevel, watermark, target) == if cur == [] then [] else [cur]
  {
  }

  lemma AllToCome(o: Options, job: Job, watermark: nat)
    ensures OutputRuns(o, job, watermark)
         == ToCome(MergeAll(Streams(job)), None, [], 0, IntoLastLevel(o, job), watermark, o.targetFileSize)
  {
    hide MergeAll, Streams, FirstPerKey, DropTombstones, SplitFrom;
  }

  // ---------------------------------------------------------------- the files written so far

  /** The tables and file contents for the runs closed so far. */
  ghost predicate Written(fmt: Format, runs: seq<seq<Record>>, next: nat, tables: seq<Table>, contents: seq<bytes>) {
    && NoneEmpty(runs)
    && tables == NewTables(fmt, runs, next)
    && |contents| == |runs| && forall i :: 0 <= i < |runs| ==> contents[i] == TableBytes(fmt, runs[i])
  }

  lemma {:induction false} NewTablesSnoc(fmt: Format, runs: seq<seq<Record>>, run: seq<Record>, num: nat)
    requires NoneEmpty(runs) && run != []
    ensures NoneEmpty(runs + [run])
    ensures NewTables(fmt, runs + [run], num) == NewTables(fmt, runs, num) + [NewTable(fmt, num + |runs|, run)]
  {
    hide NewTable;
    assert NoneEmpty(runs + [run]);
    if runs == [] {
      assert ([] + [run])[1..] == [];
    } else {
      NewTablesSnoc(fmt, runs[1..], run, num + 1);
      assert (runs + [run])[1..] == runs[1..] + [run];
    }
  }

  lemma WrittenNext(fmt: Format, runs: seq<seq<Record>>, next: nat, tables: seq<Table>, contents: seq<bytes>,
      run: seq<Record>, t: Table)
    requires Written(fmt, runs, next, tables, contents) && run != [] && t == NewTable(fmt, next + |runs|, run)
    ensures Written(fmt, runs + [run], next, tables + [t], contents + [TableBytes(fmt, run)])
  {
    hide NewTables, NewTable, TableBytes;
    NewTablesSnoc(fmt, runs, run, next);
  }

  lemma NothingWritten(fmt: Format, next: nat)
    ensures Written(fmt, [], next, [], [])
  {
  }

  /** Finish the builder's file, the next one to be numbered; `run` is what was added to it. */
  method FlushBuilder(b: SsTableBuilder, run: seq<Record>, ghost runs: seq<seq<Record>>, next: nat,
      tables: seq<Table>, contents: seq<bytes>)
    returns (tables': seq<Table>, contents': seq<bytes>)
    requires b.Valid() && b.added == run != [] && Written(b.fmt, runs, next, tables, contents)
    modifies b, b.block
    ensures Written(b.fmt, runs + [run], next, tables', contents')
  {
    hide TableBytes, NewTables, SsTableBuilder.Valid;
    var file, meta := b.Finish();
    var t := Table(next + |tables|, meta.smallest.userKey, meta.largest.userKey, meta.fileSize, run);
    WrittenNext(b.fmt, runs, next, tables, contents, run, t);
    tables' := tables + [t];
    contents' := contents + [file];
  }

  /** Merge the inputs, keep the newest version of each key, drop tombstones at the last level,
      and write what is left to tables of about `target_file_size`: exactly `Outputs`. */
  method RunCompaction(o: Options, job: Job, streams: seq<seq<Record>>, watermark: nat, next: nat)
    returns (tables: seq<Table>, contents: seq<bytes>)
    requires streams == Streams(job)
    ensures tables == Outputs(o, job, watermark, next)
    ensures |contents| == |tables| && forall i :: 0 <= i < |tables| ==> contents[i] == TableBytes(o.fmt, tables[i].recs)
  {
    hide *;
    var lastLevel := job.level + 1 + 1 >= o.maxLevels;
    var heap, iters := Prime(streams);
    ghost var pending := streams;
    ghost var done: seq<seq<Record>> := [];
    var lastUser: Option<bytes> := None;
    var builder: SsTableBuilder? := null;
    var cur: seq<Record> := [];
    var size: nat := 0;
    tables, contents := [], [];
    LastLevelIs(o, job);
    AllToCome(o, job, watermark);
    NothingWritten(o.fmt, next);
    ghost var all := OutputRuns(o, job, watermark);
    assert [] + all == all;
    while heap != []
      invariant InStep(heap, iters, pending)
      invariant builder == null <==> cur == []
      invariant builder != null ==> fresh(builder) && fresh(builder.block) && builder.Valid() && builder.added == cur && builder.fmt == o.fmt
      invariant Written(o.fmt, done, next, tables, contents)
      invariant all == done + ToCome(MergeAll(pending), lastUser, cur, size, lastLevel, watermark, o.targetFileSize)
      decreases |MergeAll(pending)|
    {
      ghost var before := pending;
      var r;
      r, heap, iters, pending := PopNext(heap, iters, pending);
      ComesNext(r, MergeAll(pending), lastUser, cur, size, lastLevel, watermark, o.targetFileSize);
      if lastUser == Some(r.ik.userKey) {
        continue;
      }
      lastUser := Some(r.ik.userKey);
      if Drops(r, lastLevel, watermark) {
        continue;
      }
      if builder == null {
        builder := new SsTableBuilder(o.fmt);
        size := 0;
      }
      builder.Add(r);
      size := size + MemTables.Cost(r);
      cur := cur + [r];
      if size >= o.targetFileSize {
        tables, contents := FlushBuilder(builder, cur, done, next, tables, contents);
        done := done + [cur];
        builder, cur := null, [];
      }
    }
    NoneLeft(iters, pending);
    NothingToCome(lastUser, cur, size, lastLevel, watermark, o.targetFileSize);
    if builder != null {
      tables, contents := FlushBuilder(builder, cur, done, next, tables, contents);
      done := done + [cur];
    }
    WrittenAll(o, job, watermark, next, done, tables, contents);
  }

  lemma NoneLeft(iters: seq<seq<Record>>, pending: seq<seq<Record>>)
    requires InStep([], iters, pending)
    ensures MergeAll(pending) == []
  {
    EmptyHeap(pending);
  }

  lemma WrittenAll(o: Options, job: Job, watermark: nat, next: nat, runs: seq<seq<Record>>, tables: seq<Table>,
      contents: seq<bytes>)
    requires Written(o.fmt, runs, next, tables, contents) && runs == OutputRuns(o, job, watermark)
    ensures tables == Outputs(o, job, watermark, next)
    ensures |contents| == |tables| && forall i :: 0 <= i < |tables| ==> contents[i] == TableBytes(o.fmt, tables[i].recs)
  {
    hide OutputRuns, TableBytes, NewTables;
    forall i | 0 <= i < |tables| ensures tables[i].recs == runs[i] {
      NewTablesAt(o.fmt, runs, next, i);
    }
  }

  // ---------------------------------------------------------------- the edits

  /** Additions first, then one deletion per input, at the level the input came from. */
  method BuildEdits(job: Job, tables: seq<Table>) returns (edits: seq<Edit>)
    requires forall t, u :: t in job.upper && u in job.lower ==> t.num != u.num
    ensures edits == AddEdits(job.level + 1, tables)
        + (DeleteEdits(job.level, job.upper) + DeleteEdits(job.level + 1, job.lower))
  {
    edits := [];
    for i := 0 to |tables|
      invariant edits == AddEdits(job.level + 1, tables[..i])
    {
      assert tables[..i + 1][..i] == tables[..i];
      edits := edits + [AddFile(MetaOf(job.level + 1, tables[i]))];
    }
    assert tables[..|tables|] == tables;
    ghost var adds := edits;
    var nums := set t | t in job.upper :: t.num;
    for i := 0 to |job.upper|
      invariant edits == adds + DeleteEdits(job.level, job.upper[..i])
    {
      assert job.upper[..i + 1][..i] == job.upper[..i];
      var level := if job.upper[i].num in nums then job.level else job.level + 1;
      edits := edits + [DeleteFile(level, job.upper[i].num)];
    }
    assert job.upper[..|job.upper|] == job.upper;
    ghost var ups := DeleteEdits(job.level, job.upper);
    for i := 0 to |job.lower|
      invariant edits == adds + (ups + DeleteEdits(job.level + 1, job.lower[..i]))
    {
      assert job.lower[..i + 1][..i] == job.lower[..i];
      var level := if job.lower[i].num in nums then job.level else job.level + 1;
      edits := edits + [DeleteFile(level, job.lower[i].num)];
    }
    assert job.lower[..|job.lower|] == job.lower;
  }
}
