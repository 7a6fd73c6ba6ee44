/** The k-way merge (the heaps of src/iter.rs and src/compact.rs) and what it emits. */
module Merge {
  import opened ByteStrings
  import opened Keys
  import opened Records

  // ---------------------------------------------------------------- the merge as a function

  ghost predicate AllSorted(ss: seq<seq<Record>>) {
    forall i :: 0 <= i < |ss| ==> Sorted(ss[i])
  }

  function Total(ss: seq<seq<Record>>): nat {
    if ss == [] then 0 else |ss[0]| + Total(ss[1..])
  }

  function Bag(ss: seq<seq<Record>>): multiset<Record> {
    if ss == [] then multiset{} else multiset(ss[0]) + Bag(ss[1..])
  }

  ghost predicate InSome(ss: seq<seq<Record>>, r: Record) {
    exists i :: 0 <= i < |ss| && r in ss[i]
  }

  /** The stream among the first `n` whose head the heap pops: least key, then least index. */
  function MinHead(ss: seq<seq<Record>>, n: nat): (o: Option<nat>)
    requires n <= |ss|
    ensures o.None? <==> forall j :: 0 <= j < n ==> ss[j] == []
    ensures o.Some? ==> o.value < n && ss[o.value] != []
    ensures o.Some? ==> forall j :: 0 <= j < n && ss[j] != [] ==> !KeyLt(ss[j][0].ik, ss[o.value][0].ik)
    ensures o.Some? ==> forall j :: 0 <= j < o.value && ss[j] != [] ==> ss[j][0].ik != ss[o.value][0].ik
  {
    if n == 0 then None
    else
      match MinHead(ss, n - 1)
      case None => if ss[n - 1] == [] then None else Some(n - 1)
      case Some(i) =>
        KeyOrder();
        if ss[n - 1] != [] && KeyLt(ss[n - 1][0].ik, ss[i][0].ik) then Some(n - 1) else Some(i)
  }

  lemma {:induction false} PopMeasure(ss: seq<seq<Record>>, i: nat)
    requires i < |ss| && ss[i] != []
    ensures Total(ss) == Total(ss[i := ss[i][1..]]) + 1
    ensures Bag(ss) == multiset{ss[i][0]} + Bag(ss[i := ss[i][1..]])
  {
    var tt := ss[i := ss[i][1..]];
    if i == 0 {
      assert tt[1..] == ss[1..];
      assert ss[0] == [ss[0][0]] + ss[0][1..];
    } else {
      PopMeasure(ss[1..], i - 1);
      assert tt[1..] == ss[1..][i - 1 := ss[i][1..]];
    }
  }

  /** Every record of every stream, in the order the heap pops them. */
  function MergeAll(ss: seq<seq<Record>>): seq<Record>
    decreases Total(ss)
  {
    match MinHead(ss, |ss|)
    case None => []
    case Some(i) =>
      PopMeasure(ss, i);
      [ss[i][0]] + MergeAll(ss[i := ss[i][1..]])
  }

  lemma {:induction false} BagEmpty(ss: seq<seq<Record>>)
    requires forall j :: 0 <= j < |ss| ==> ss[j] == []
    ensures Bag(ss) == multiset{} && Total(ss) == 0
  {
    if ss != [] { BagEmpty(ss[1..]); }
  }

  /** The merge is a permutation of the streams. */
  lemma {:induction false} MergeIsPermutation(ss: seq<seq<Record>>)
    ensures multiset(MergeAll(ss)) == Bag(ss)
    ensures |MergeAll(ss)| == Total(ss)
    decreases Total(ss)
  {
    match MinHead(ss, |ss|) {
      case None => BagEmpty(ss);
      case Some(i) =>
        PopMeasure(ss, i);
        MergeIsPermutation(ss[i := ss[i][1..]]);
    }
  }

  lemma {:induction false} BagMembers(ss: seq<seq<Record>>, r: Record)
    ensures r in Bag(ss) <==> InSome(ss, r)
  {
    if ss != [] {
      BagMembers(ss[1..], r);
      if InSome(ss, r) {
        var i :| 0 <= i < |ss| && r in ss[i];
        if i > 0 { assert ss[1..][i - 1] == ss[i]; }
      }
      if InSome(ss[1..], r) {
        var i :| 0 <= i < |ss[1..]| && r in ss[1..][i];
        assert ss[i + 1] == ss[1..][i];
      }
    }
  }

  lemma MergeMembers(ss: seq<seq<Record>>, r: Record)
    ensures r in MergeAll(ss) <==> InSome(ss, r)
  {
    MergeIsPermutation(ss);
    BagMembers(ss, r);
    assert r in MergeAll(ss) <==> r in multiset(MergeAll(ss));
  }

  lemma TailSorted(rs: seq<Record>)
    requires Sorted(rs) && rs != []
    ensures Sorted(rs[1..])
    ensures forall r :: r in rs[1..] ==> KeyLt(rs[0].ik, r.ik)
  {
    forall r | r in rs[1..] ensures KeyLt(rs[0].ik, r.ik) {
      var i :| 0 <= i < |rs[1..]| && rs[1..][i] == r;
      assert rs[i + 1] == r;
    }
  }

  /** The popped head is least among everything still in the streams. */
  lemma MinHeadIsLeast(ss: seq<seq<Record>>, i: nat, r: Record)
    requires AllSorted(ss) && MinHead(ss, |ss|) == Some(i) && InSome(ss, r)
    ensures !KeyLt(r.ik, ss[i][0].ik)
  {
    var j :| 0 <= j < |ss| && r in ss[j];
    if r != ss[j][0] && KeyLt(r.ik, ss[i][0].ik) {
      var n :| 0 <= n < |ss[j]| && ss[j][n] == r;
      KeyLtTrans(ss[j][0].ik, r.ik, ss[i][0].ik);
    }
  }

  /** For sorted streams the merge is sorted. */
  lemma {:induction false} MergeIsSorted(ss: seq<seq<Record>>)
    requires AllSorted(ss)
    ensures WeaklySorted(MergeAll(ss))
    decreases Total(ss)
  {
    match MinHead(ss, |ss|) {
      case None =>
      case Some(i) =>
        PopMeasure(ss, i);
        var tt := ss[i := ss[i][1..]];
        TailSorted(ss[i]);
        MergeIsSorted(tt);
        forall r | r in MergeAll(tt) ensures !KeyLt(r.ik, ss[i][0].ik) {
          LeftInStreams(ss, i, r);
          MinHeadIsLeast(ss, i, r);
        }
        ConsSorted(ss[i][0], MergeAll(tt));
    }
  }

  lemma LeftInStreams(ss: seq<seq<Record>>, i: nat, r: Record)
    requires i < |ss| && ss[i] != [] && r in MergeAll(ss[i := ss[i][1..]])
    ensures InSome(ss, r)
  {
    hide MergeAll;
    var tt := ss[i := ss[i][1..]];
    MergeMembers(tt, r);
    var j :| 0 <= j < |tt| && r in tt[j];
    assert r in ss[j];
  }

  lemma ConsSorted(r: Record, rs: seq<Record>)
    requires WeaklySorted(rs) && forall q :: q in rs ==> !KeyLt(q.ik, r.ik)
    ensures WeaklySorted([r] + rs)
  {
    hide KeyLt;
    CmpEqual(r.ik, r.ik);
  }

  // ---------------------------------------------------------------- first record per user key

  /** Skip a record whose user key is the last one seen: both loops' `last_user` test. */
  function FirstPerKey(rs: seq<Record>, last: Option<bytes>): seq<Record> {
    if rs == [] then []
    else if last == Some(rs[0].ik.userKey) then FirstPerKey(rs[1..], last)
    else [rs[0]] + FirstPerKey(rs[1..], Some(rs[0].ik.userKey))
  }

  lemma WeaklySortedTail(rs: seq<Record>)
    requires WeaklySorted(rs) && rs != []
    ensures WeaklySorted(rs[1..])
    ensures forall r :: r in rs ==> !KeyLt(r.ik, rs[0].ik)
    ensures forall r :: r in rs ==> Leq(rs[0].ik.userKey, r.ik.userKey)
  {
    KeyOrder();
    LtOrder();
  }

  lemma {:induction false} FirstPerKeyIncreases(rs: seq<Record>, last: Option<bytes>)
    requires WeaklySorted(rs)
    requires last.Some? ==> forall r :: r in rs ==> Leq(last.value, r.ik.userKey)
    ensures KeysIncrease(FirstPerKey(rs, last))
    ensures forall o :: o in FirstPerKey(rs, last) ==> o in rs && (last.Some? ==> Lt(last.value, o.ik.userKey))
  {
    if rs != [] {
      WeaklySortedTail(rs);
      if last == Some(rs[0].ik.userKey) {
        FirstPerKeyIncreases(rs[1..], last);
      } else {
        FirstPerKeyIncreases(rs[1..], Some(rs[0].ik.userKey));
        LtOrder();
      }
    }
  }

  lemma {:induction false} FirstPerKeyCovers(rs: seq<Record>, last: Option<bytes>, r: Record)
    requires WeaklySorted(rs) && r in rs && last != Some(r.ik.userKey)
    ensures exists o :: o in FirstPerKey(rs, last) && o.ik.userKey == r.ik.userKey && !KeyLt(r.ik, o.ik)
  {
    WeaklySortedTail(rs);
    if r.ik.userKey == rs[0].ik.userKey {
      assert rs[0] in FirstPerKey(rs, last);
    } else if last == Some(rs[0].ik.userKey) {
      FirstPerKeyCovers(rs[1..], last, r);
    } else {
      FirstPerKeyCovers(rs[1..], Some(rs[0].ik.userKey), r);
    }
  }

  /** What the merge keeps for each user key is its newest version, once. */
  lemma FirstPerKeyIsNewest(rs: seq<Record>, o: Record)
    requires WeaklySorted(rs)
    ensures KeysIncrease(FirstPerKey(rs, None))
    ensures o in FirstPerKey(rs, None) ==>
              o in rs && forall q :: q in rs && q.ik.userKey == o.ik.userKey ==> q.ik.seqno <= o.ik.seqno
  {
    FirstPerKeyIncreases(rs, None);
    if o in FirstPerKey(rs, None) {
      forall q | q in rs && q.ik.userKey == o.ik.userKey ensures q.ik.seqno <= o.ik.seqno {
        FirstPerKeyCovers(rs, None, q);
        var p :| p in FirstPerKey(rs, None) && p.ik.userKey == q.ik.userKey && !KeyLt(q.ik, p.ik);
        SameKeySameRecord(FirstPerKey(rs, None), o, p);
        LtOrder();
      }
    }
  }

  lemma SameKeySameRecord(rs: seq<Record>, a: Record, b: Record)
    requires KeysIncrease(rs) && a in rs && b in rs && a.ik.userKey == b.ik.userKey
    ensures a == b
  {
    LtOrder();
  }

  // ---------------------------------------------------------------- the heap

  datatype HeapItem = HeapItem(rec: Record, source: nat)

  /** `BinaryHeap` pops its greatest item; both `Ord` impls reverse the key order, so the
      least internal key comes out first and the lower source index breaks ties. */
  predicate PopsBefore(a: HeapItem, b: HeapItem) {
    match Cmp(b.rec.ik, a.rec.ik)
    case Equal => a.source < b.source
    case o => o == Greater
  }

  /** The heap holds the head of every stream that still has records, and `rest` the tails. */
  ghost predicate HoldsHeads(heap: seq<HeapItem>, pending: seq<seq<Record>>) {
    && (forall i :: 0 <= i < |pending| && pending[i] != [] ==> HeapItem(pending[i][0], i) in heap)
    && (forall x :: x in heap ==> x.source < |pending| && pending[x.source] != [] && x.rec == pending[x.source][0])
    && (forall a, b :: 0 <= a < b < |heap| ==> heap[a].source != heap[b].source)
  }

  lemma PopsBeforeTotal(a: HeapItem, b: HeapItem)
    requires a.source != b.source
    ensures PopsBefore(a, b) || PopsBefore(b, a)
  {
    CmpFlip(a.rec.ik, b.rec.ik);
    CmpFlip(b.rec.ik, a.rec.ik);
  }

  lemma PopsBeforeTrans(a: HeapItem, b: HeapItem, c: HeapItem)
    requires PopsBefore(a, b) && PopsBefore(b, c)
    ensures PopsBefore(a, c)
  {
    CmpFlip(a.rec.ik, b.rec.ik);
    CmpFlip(b.rec.ik, c.rec.ik);
    CmpFlip(a.rec.ik, c.rec.ik);
    CmpEqual(a.rec.ik, b.rec.ik);
    CmpEqual(b.rec.ik, c.rec.ik);
    if KeyLt(a.rec.ik, b.rec.ik) && KeyLt(b.rec.ik, c.rec.ik) { KeyLtTrans(a.rec.ik, b.rec.ik, c.rec.ik); }
  }

  method Pop(heap: seq<HeapItem>) returns (item: HeapItem, rest: seq<HeapItem>)
    requires heap != []
    requires forall a, b :: 0 <= a < b < |heap| ==> heap[a].source != heap[b].source
    ensures item in heap && forall x :: x in heap ==> x == item || PopsBefore(item, x)
    ensures exists n :: 0 <= n < |heap| && heap[n] == item && rest == heap[..n] + heap[n + 1..]
  {
    var best := 0;
    for i := 1 to |heap|
      invariant 0 <= best < i
      invariant forall j :: 0 <= j < i ==> heap[j] == heap[best] || PopsBefore(heap[best], heap[j])
    {
      PopsBeforeTotal(heap[i], heap[best]);
      if PopsBefore(heap[i], heap[best]) {
        forall j | 0 <= j < i ensures PopsBefore(heap[i], heap[j]) {
          if heap[j] != heap[best] { PopsBeforeTrans(heap[i], heap[best], heap[j]); }
        }
        best := i;
      }
    }
    item := heap[best];
    rest := heap[..best] + heap[best + 1..];
  }

  /** Popping the heap follows `MergeAll`. */
  lemma PopIsMinHead(heap: seq<HeapItem>, pending: seq<seq<Record>>, item: HeapItem)
    requires HoldsHeads(heap, pending)
    requires item in heap && forall x :: x in heap ==> x == item || PopsBefore(item, x)
    ensures MinHead(pending, |pending|) == Some(item.source)
  {
    KeyOrder();
    var m := MinHead(pending, |pending|);
    if m.None? { assert false; }
    assert HeapItem(pending[m.value][0], m.value) in heap;
  }

  lemma EmptyHeap(pending: seq<seq<Record>>)
    requires HoldsHeads([], pending)
    ensures MergeAll(pending) == []
  {
    assert forall i :: 0 <= i < |pending| ==> pending[i] == [];
  }

  /** Refilling the heap from the popped stream keeps the heap in step with the streams. */
  lemma Refilled(heap: seq<HeapItem>, pending: seq<seq<Record>>, n: nat, item: HeapItem, after: seq<HeapItem>)
    requires HoldsHeads(heap, pending) && n < |heap| && item == heap[n]
    requires var tail := pending[item.source][1..];
             after == heap[..n] + heap[n + 1..] + (if tail == [] then [] else [HeapItem(tail[0], item.source)])
    ensures HoldsHeads(after, pending[item.source := pending[item.source][1..]])
  {
    var rest := heap[..n] + heap[n + 1..];
    var tail := pending[item.source][1..];
    var pending' := pending[item.source := tail];
    assert forall a :: 0 <= a < |rest| ==> rest[a] == heap[if a < n then a else a + 1];
    forall i | 0 <= i < |pending'| && pending'[i] != [] ensures HeapItem(pending'[i][0], i) in after {
      if i == item.source {
        assert after[|after| - 1] == HeapItem(tail[0], i);
      } else {
        var h :| 0 <= h < |heap| && heap[h] == HeapItem(pending[i][0], i);
        assert h != n;
        assert rest[if h < n then h else h - 1] == heap[h];
        assert after[if h < n then h else h - 1] == heap[h];
      }
    }
  }
}
