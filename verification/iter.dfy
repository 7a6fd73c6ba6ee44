/** The merging iterator behind scans (src/iter.rs). */
module Iter {
  import opened ByteStrings
  import opened Keys
  import opened Records
  import opened Merge

  /** A user key with its value, or with None for a tombstone that is not skipped. */
  type Item = (bytes, Option<bytes>)

  function ItemOf(r: Record): Item {
    (r.ik.userKey, ValueOf(Some(r)))
  }

  /** What the iterator yields from merged records, given the last user key it saw. */
  function Yields(rs: seq<Record>, last: Option<bytes>, skipTombstones: bool): seq<Item> {
    if rs == [] then []
    else if last == Some(rs[0].ik.userKey) then Yields(rs[1..], last, skipTombstones)
    else
      (if rs[0].ik.kind == Delete && skipTombstones then [] else [ItemOf(rs[0])])
      + Yields(rs[1..], Some(rs[0].ik.userKey), skipTombstones)
  }

  /** The unread part of a raw stream, once its head is in the heap. */
  predicate Behind(raw: seq<Record>, pending: seq<Record>, maxSeq: nat) {
    VisibleOnly(raw, maxSeq) == if pending == [] then [] else pending[1..]
  }

  ghost predicate InStep(heap: seq<HeapItem>, streams: seq<seq<Record>>, pending: seq<seq<Record>>, maxSeq: nat) {
    && HoldsHeads(heap, pending)
    && |streams| == |pending|
    && forall i :: 0 <= i < |streams| ==> Behind(streams[i], pending[i], maxSeq)
  }

  class MergeIterator {
    var heap: seq<HeapItem>
    var streams: seq<seq<Record>>
    var lastUser: Option<bytes>
    const maxSeq: nat
    const skipTombstones: bool

    /** The visible records not yet popped, stream by stream. */
    ghost var pending: seq<seq<Record>>

    ghost predicate Valid()
      reads this
    {
      InStep(heap, streams, pending, maxSeq)
    }

    /** Everything the iterator will still yield. */
    ghost function Rest(): seq<Item>
      reads this
    {
      Yields(MergeAll(pending), lastUser, skipTombstones)
    }

    constructor FromSortedStreams(input: seq<seq<Record>>, maxSeq: nat, skipTombstones: bool)
      ensures Valid()
      ensures |pending| == |input|
      ensures forall i :: 0 <= i < |input| ==> pending[i] == VisibleOnly(input[i], maxSeq)
      ensures lastUser == None && this.maxSeq == maxSeq && this.skipTombstones == skipTombstones
    {
      var h, iters, p := Prime(input, maxSeq);
      this.maxSeq := maxSeq;
      this.skipTombstones := skipTombstones;
      lastUser := None;
      heap := h;
      streams := iters;
      pending := p;
    }

    /** Pop the heap and refill it from the stream the item came from. */
    method PopAndRefill() returns (r: Record)
      requires Valid() && heap != []
      modifies this`heap, this`streams, this`pending
      ensures Valid()
      ensures old(MergeAll(pending)) == [r] + MergeAll(pending)
    {
      hide VisibleOnly, MergeAll, PopsBefore, KeyLt;
      var item, rest := Pop(heap);
      var src := item.source;
      PopIsMinHead(heap, pending, item);
      assert Behind(streams[src], pending[src], maxSeq);
      var hit, more := NextVisible(streams[src], maxSeq);
      Advanced(heap, streams, pending, maxSeq, item, rest, hit, more);
      heap := rest + (if hit.Some? then [HeapItem(hit.value, src)] else []);
      streams := streams[src := more];
      pending := pending[src := pending[src][1..]];
      r := item.rec;
    }

    method Next() returns (r: Option<Item>)
      requires Valid()
      modifies this
      ensures Valid()
      ensures old(Rest()) == [] ==> r == None && Rest() == []
      ensures old(Rest()) != [] ==> r == Some(old(Rest())[0]) && Rest() == old(Rest())[1..]
    {
      while heap != []
        invariant Valid()
        invariant Rest() == old(Rest())
        decreases |MergeAll(pending)|
      {
        ghost var before := MergeAll(pending);
        var rec := PopAndRefill();
        assert before[0] == rec && before[1..] == MergeAll(pending);
        if lastUser == Some(rec.ik.userKey) {
          continue;
        }
        lastUser := Some(rec.ik.userKey);
        if rec.ik.kind == Delete && skipTombstones {
          continue;
        }
        return Some(ItemOf(rec));
      }
      EmptyHeap(pending);
      r := None;
    }

    /** `collect()` over the iterator. */
    method Collect() returns (out: seq<Item>)
      requires Valid()
      modifies this
      ensures Valid() && Rest() == []
      ensures out == old(Rest())
    {
      hide *;
      out := [];
      ghost var all := Rest();
      ghost var left := all;
      while true
        invariant Valid() && left == Rest()
        invariant all == out + left
        decreases |left|
      {
        var r := Next();
        if r.None? { break; }
        assert left == [left[0]] + left[1..];
        left := left[1..];
        out := out + [r.value];
      }
    }
  }

  /** Fill the heap with the first visible record of every stream. */
  method Prime(input: seq<seq<Record>>, maxSeq: nat)
    returns (heap: seq<HeapItem>, streams: seq<seq<Record>>, ghost pending: seq<seq<Record>>)
    ensures InStep(heap, streams, pending, maxSeq)
    ensures |pending| == |input|
    ensures forall i :: 0 <= i < |input| ==> pending[i] == VisibleOnly(input[i], maxSeq)
  {
    hide VisibleOnly, MergeAll, KeyLt;
    heap, streams, pending := [], [], [];
    for i := 0 to |input|
      invariant |pending| == i
      invariant InStep(heap, streams, pending, maxSeq)
      invariant forall j :: 0 <= j < i ==> pending[j] == VisibleOnly(input[j], maxSeq)
    {
      var hit, rest := NextVisible(input[i], maxSeq);
      ghost var visible := VisibleOnly(input[i], maxSeq);
      assert visible == [] <==> hit.None?;
      StreamAdded(heap, streams, pending, maxSeq, rest, visible);
      heap := heap + (if hit.Some? then [HeapItem(hit.value, i)] else []);
      streams := streams + [rest];
      pending := pending + [visible];
    }
  }

  /** Popping the heap and refilling it from the popped stream takes one step of the merge. */
  lemma Advanced(heap: seq<HeapItem>, streams: seq<seq<Record>>, pending: seq<seq<Record>>, maxSeq: nat,
                 item: HeapItem, rest: seq<HeapItem>, hit: Option<Record>, more: seq<Record>)
    requires InStep(heap, streams, pending, maxSeq)
    requires MinHead(pending, |pending|) == Some(item.source)
    requires exists n :: 0 <= n < |heap| && heap[n] == item && rest == heap[..n] + heap[n + 1..]
    requires pending[item.source][1..] == if hit.Some? then [hit.value] + VisibleOnly(more, maxSeq) else []
    requires hit.None? ==> more == []
    ensures InStep(rest + (if hit.Some? then [HeapItem(hit.value, item.source)] else []),
                   streams[item.source := more], pending[item.source := pending[item.source][1..]], maxSeq)
    ensures MergeAll(pending) == [item.rec] + MergeAll(pending[item.source := pending[item.source][1..]])
  {
    var n :| 0 <= n < |heap| && heap[n] == item && rest == heap[..n] + heap[n + 1..];
    assert heap[n] in heap;
    var after := rest + (if hit.Some? then [HeapItem(hit.value, item.source)] else []);
    Refilled(heap, pending, n, item, after);
  }

  lemma StreamAdded(heap: seq<HeapItem>, streams: seq<seq<Record>>, pending: seq<seq<Record>>, maxSeq: nat,
                    raw: seq<Record>, visible: seq<Record>)
    requires InStep(heap, streams, pending, maxSeq)
    requires Behind(raw, visible, maxSeq)
    ensures InStep(if visible == [] then heap else heap + [HeapItem(visible[0], |pending|)],
                   streams + [raw], pending + [visible], maxSeq)
  {
    var h := if visible == [] then heap else heap + [HeapItem(visible[0], |pending|)];
    var p := pending + [visible];
    forall i | 0 <= i < |p| && p[i] != [] ensures HeapItem(p[i][0], i) in h {
      if i < |pending| {
        assert HeapItem(pending[i][0], i) in heap;
      } else {
        assert h[|h| - 1] == HeapItem(p[i][0], i);
      }
    }
  }

  /** Advance a stream to its next visible record. */
  method NextVisible(s: seq<Record>, maxSeq: nat) returns (hit: Option<Record>, rest: seq<Record>)
    ensures VisibleOnly(s, maxSeq) == if hit.Some? then [hit.value] + VisibleOnly(rest, maxSeq) else []
    ensures hit.None? ==> rest == [] && VisibleOnly(rest, maxSeq) == []
  {
    rest := s;
    while rest != []
      invariant VisibleOnly(s, maxSeq) == VisibleOnly(rest, maxSeq)
    {
      var r := rest[0];
      rest := rest[1..];
      if r.ik.seqno <= maxSeq { return Some(r), rest; }
    }
    hit := None;
  }

  // ---------------------------------------------------------------- what a merge yields

  function Items(rs: seq<Record>): seq<Item> {
    if rs == [] then []
    else (if rs[0].ik.kind == Delete then [] else [ItemOf(rs[0])]) + Items(rs[1..])
  }

  lemma {:induction false} YieldsAreItems(rs: seq<Record>, last: Option<bytes>)
    ensures Yields(rs, last, true) == Items(FirstPerKey(rs, last))
  {
    if rs != [] {
      YieldsAreItems(rs[1..], last);
      YieldsAreItems(rs[1..], Some(rs[0].ik.userKey));
      var f := FirstPerKey(rs[1..], Some(rs[0].ik.userKey));
      assert ([rs[0]] + f)[1..] == f;
    }
  }

  /** An iterator that does not skip tombstones yields every key it merges, a deleted one with nothing. */
  lemma {:induction false} YieldsTombstones(rs: seq<Record>, last: Option<bytes>)
    ensures |Yields(rs, last, false)| == |FirstPerKey(rs, last)|
    ensures forall i :: 0 <= i < |FirstPerKey(rs, last)| ==>
              var r := FirstPerKey(rs, last)[i];
              Yields(rs, last, false)[i] == (r.ik.userKey, if r.ik.kind == Put then Some(r.value) else None)
  {
    if rs != [] {
      YieldsTombstones(rs[1..], last);
      YieldsTombstones(rs[1..], Some(rs[0].ik.userKey));
    }
  }

  ghost predicate ItemKeysIncrease(items: seq<Item>) {
    forall i, j :: 0 <= i < j < |items| ==> Lt(items[i].0, items[j].0)
  }

  lemma {:induction false} ItemsOfIncreasing(rs: seq<Record>)
    requires KeysIncrease(rs)
    ensures ItemKeysIncrease(Items(rs))
    ensures forall it :: it in Items(rs) ==> exists r :: r in rs && r.ik.kind == Put && it == ItemOf(r)
    ensures forall r :: r in rs && r.ik.kind == Put ==> ItemOf(r) in Items(rs)
  {
    if rs != [] {
      hide Lt;
      ItemsOfIncreasing(rs[1..]);
      assert rs == [rs[0]] + rs[1..];
      forall it | it in Items(rs[1..]) ensures Lt(rs[0].ik.userKey, it.0) {
        var r :| r in rs[1..] && r.ik.kind == Put && it == ItemOf(r);
        var i :| 0 <= i < |rs[1..]| && rs[1..][i] == r;
        assert rs[i + 1] == r;
      }
    }
  }

  /** The streams hold `r`, or a newer version of its key that shadows it below `maxSeq`. */
  ghost predicate Represented(ss: seq<seq<Record>>, S: set<Record>, maxSeq: nat, r: Record) {
    exists q :: q in S && Visible(q, r.ik.userKey, maxSeq) && r.ik.seqno <= q.ik.seqno && InSome(ss, q)
  }

  ghost predicate HoldsAll(ss: seq<seq<Record>>, S: set<Record>, maxSeq: nat) {
    && (forall r :: InSome(ss, r) ==> r in S && r.ik.seqno <= maxSeq)
    && (forall r :: r in S && r.ik.seqno <= maxSeq ==> Represented(ss, S, maxSeq, r))
  }

  lemma KeptIsNewest(ss: seq<seq<Record>>, S: set<Record>, maxSeq: nat, r: Record)
    requires AllSorted(ss) && OneWritePerSeq(S) && HoldsAll(ss, S, maxSeq)
    requires r in FirstPerKey(MergeAll(ss), None)
    ensures Newest(S, r.ik.userKey, maxSeq) == Some(r)
  {
    MergeIsSorted(ss);
    FirstPerKeyIsNewest(MergeAll(ss), r);
    MergeMembers(ss, r);
    forall q | q in S && Visible(q, r.ik.userKey, maxSeq) ensures q.ik.seqno <= r.ik.seqno {
      assert Represented(ss, S, maxSeq, q);
      var p :| p in S && Visible(p, q.ik.userKey, maxSeq) && q.ik.seqno <= p.ik.seqno && InSome(ss, p);
      MergeMembers(ss, p);
    }
    NewestIs(S, r.ik.userKey, maxSeq, r);
  }

  lemma NewestIsKept(ss: seq<seq<Record>>, S: set<Record>, maxSeq: nat, r: Record)
    requires AllSorted(ss) && OneWritePerSeq(S) && HoldsAll(ss, S, maxSeq)
    requires Newest(S, r.ik.userKey, maxSeq) == Some(r)
    ensures r in FirstPerKey(MergeAll(ss), None)
  {
    assert Represented(ss, S, maxSeq, r);
    MergeMembers(ss, r);
    MergeIsSorted(ss);
    FirstPerKeyCovers(MergeAll(ss), None, r);
    var p :| p in FirstPerKey(MergeAll(ss), None) && p.ik.userKey == r.ik.userKey && !KeyLt(r.ik, p.ik);
    KeptIsNewest(ss, S, maxSeq, p);
  }

  /** A merge of sorted streams that cover the visible records of `S` yields, in strictly
      increasing key order, exactly the pairs a point read at `maxSeq` would return. The
      streams may omit records shadowed by a newer visible one, as memtable scans do. */
  lemma MergeYieldsReads(ss: seq<seq<Record>>, S: set<Record>, maxSeq: nat)
    requires AllSorted(ss) && OneWritePerSeq(S) && HoldsAll(ss, S, maxSeq)
    ensures ItemKeysIncrease(Yields(MergeAll(ss), None, true))
    ensures forall it :: it in Yields(MergeAll(ss), None, true) <==>
                         it.1.Some? && ValueOf(Newest(S, it.0, maxSeq)) == it.1
  {
    var f := FirstPerKey(MergeAll(ss), None);
    MergeIsSorted(ss);
    YieldsAreItems(MergeAll(ss), None);
    FirstPerKeyIncreases(MergeAll(ss), None);
    ItemsOfIncreasing(f);
    forall it ensures it in Items(f) <==> it.1.Some? && ValueOf(Newest(S, it.0, maxSeq)) == it.1 {
      if it in Items(f) {
        var r :| r in f && r.ik.kind == Put && it == ItemOf(r);
        KeptIsNewest(ss, S, maxSeq, r);
      }
      if it.1.Some? && ValueOf(Newest(S, it.0, maxSeq)) == it.1 {
        var r := Newest(S, it.0, maxSeq).value;
        NewestIsKept(ss, S, maxSeq, r);
        assert ItemOf(r) in Items(f);
      }
    }
  }
}
