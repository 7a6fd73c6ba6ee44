/** The in-memory table (src/memtable.rs). */
module MemTables {
  import opened ByteStrings
  import opened Keys
  import opened Records
  import opened Merge

  const U64_MAX := TWO64 - 1

  datatype Bound = Unbounded | Included(k: bytes) | Excluded(k: bytes)

  predicate PastBound(b: Bound, k: bytes) {
    match b
    case Unbounded => true
    case Included(s) => Leq(s, k)
    case Excluded(s) => Lt(s, k)
  }

  /** `BTreeMap::insert`: in key order, replacing the value of an equal key. */
  function Inserted(rs: seq<Record>, r: Record): seq<Record> {
    if rs == [] then [r]
    else if rs[0].ik == r.ik then [r] + rs[1..]
    else if KeyLt(r.ik, rs[0].ik) then [r] + rs
    else [rs[0]] + Inserted(rs[1..], r)
  }

  lemma ConsStrict(r: Record, rs: seq<Record>)
    requires Sorted(rs) && forall q :: q in rs ==> KeyLt(r.ik, q.ik)
    ensures Sorted([r] + rs)
  {
    hide KeyLt;
  }

  lemma {:induction false} InsertedMembers(rs: seq<Record>, r: Record, q: Record)
    requires Sorted(rs)
    ensures q in Inserted(rs, r) <==> q == r || (q in rs && q.ik != r.ik)
  {
    if rs != [] {
      TailSorted(rs);
      assert rs == [rs[0]] + rs[1..];
      if q in rs[1..] { CmpFlip(rs[0].ik, q.ik); CmpEqual(rs[0].ik, q.ik); }
      if rs[0].ik == r.ik {
      } else if KeyLt(r.ik, rs[0].ik) {
        if q in rs[1..] { KeyLtTrans(r.ik, rs[0].ik, q.ik); }
        CmpEqual(r.ik, q.ik);
      } else {
        InsertedMembers(rs[1..], r, q);
      }
    }
  }

  lemma {:induction false} InsertedSorted(rs: seq<Record>, r: Record)
    requires Sorted(rs)
    ensures Sorted(Inserted(rs, r))
  {
    if rs != [] {
      TailSorted(rs);
      if rs[0].ik == r.ik {
        ConsStrict(r, rs[1..]);
      } else if KeyLt(r.ik, rs[0].ik) {
        forall q | q in rs ensures KeyLt(r.ik, q.ik) {
          if q != rs[0] {
            assert q in rs[1..];
            KeyLtTrans(r.ik, rs[0].ik, q.ik);
          }
        }
        ConsStrict(r, rs);
      } else {
        CmpFlip(rs[0].ik, r.ik);
        CmpEqual(rs[0].ik, r.ik);
        InsertedSorted(rs[1..], r);
        forall q | q in Inserted(rs[1..], r) ensures KeyLt(rs[0].ik, q.ik) { InsertedMembers(rs[1..], r, q); }
        ConsStrict(rs[0], Inserted(rs[1..], r));
      }
    }
  }

  /** Inserting a record whose key is not there adds exactly it. */
  lemma InsertedFresh(rs: seq<Record>, r: Record)
    requires Sorted(rs) && forall q :: q in rs ==> q.ik != r.ik
    ensures Sorted(Inserted(rs, r)) && Contents(Inserted(rs, r)) == Contents(rs) + {r}
  {
    InsertedSorted(rs, r);
    forall q ensures q in Inserted(rs, r) <==> q in rs || q == r { InsertedMembers(rs, r, q); }
  }

  /** The bytes `put` adds to the size estimate. */
  function Cost(r: Record): nat {
    |r.ik.userKey| + |r.value| + 16
  }

  /** A memtable from log records, in log order. */
  function InsertedAll(rs: seq<Record>, more: seq<Record>): seq<Record> {
    if more == [] then rs else Inserted(InsertedAll(rs, more[..|more| - 1]), more[|more| - 1])
  }

  function CostOf(rs: seq<Record>): nat {
    if rs == [] then 0 else CostOf(rs[..|rs| - 1]) + Cost(rs[|rs| - 1])
  }

  /** A value or a tombstone alike counts its key, its value and 16. */
  lemma {:induction false} CostSum(a: seq<Record>, b: seq<Record>, r: Record)
    ensures CostOf([]) == 0 && CostOf([r]) == Cost(r) == |r.ik.userKey| + |r.value| + 16
    ensures CostOf(a + b) == CostOf(a) + CostOf(b)
  {
    assert [r][..0] == [];
    if b == [] {
      assert a + b == a;
    } else {
      hide Cost;
      CostSum(a, b[..|b| - 1], r);
      assert (a + b)[..|a + b| - 1] == a + b[..|b| - 1];
    }
  }

  /** What a bound lets through. */
  lemma BoundIs(k: bytes, s: bytes)
    ensures PastBound(Unbounded, k)
    ensures PastBound(Included(s), k) <==> !Lt(k, s)
    ensures PastBound(Excluded(s), k) <==> !Lt(k, s) && k != s
  {
    LtTotal(k, s);
    if Lt(k, s) { LtAsym(k, s); }
    if Lt(s, k) { LtAsym(s, k); }
  }

  // ---------------------------------------------------------------- range scans

  /** The records past the bound that are visible: what the range iterator does not skip at once. */
  function InRange(rs: seq<Record>, bound: Bound, maxSeq: nat): seq<Record> {
    if rs == [] then []
    else
      (if PastBound(bound, rs[0].ik.userKey) && rs[0].ik.seqno <= maxSeq then [rs[0]] else [])
      + InRange(rs[1..], bound, maxSeq)
  }

  lemma {:induction false} InRangeMembers(rs: seq<Record>, bound: Bound, maxSeq: nat, r: Record)
    ensures r in InRange(rs, bound, maxSeq)
       <==> r in rs && PastBound(bound, r.ik.userKey) && r.ik.seqno <= maxSeq
  {
    if rs != [] {
      hide PastBound;
      InRangeMembers(rs[1..], bound, maxSeq, r);
      assert rs == [rs[0]] + rs[1..];
    }
  }

  lemma {:induction false} InRangeSorted(rs: seq<Record>, bound: Bound, maxSeq: nat)
    requires Sorted(rs)
    ensures Sorted(InRange(rs, bound, maxSeq))
  {
    if rs != [] {
      hide PastBound, KeyLt;
      TailSorted(rs);
      InRangeSorted(rs[1..], bound, maxSeq);
      var tail := InRange(rs[1..], bound, maxSeq);
      forall r | r in tail ensures KeyLt(rs[0].ik, r.ik) { InRangeMembers(rs[1..], bound, maxSeq, r); }
      ConsStrict(rs[0], tail);
      assert [] + tail == tail;
    }
  }

  /** What `range_from` yields: the newest visible version of each key past the bound. */
  function Ranged(rs: seq<Record>, bound: Bound, maxSeq: nat, last: Option<bytes>): seq<Record> {
    FirstPerKey(InRange(rs, bound, maxSeq), last)
  }

  // ---------------------------------------------------------------- the table as an object

  class MemTable {
    var entries: seq<Record>
    var approxBytes: nat

    ghost predicate Valid()
      reads this
    {
      Sorted(entries) && forall r :: r in entries ==> r.ik.seqno < U64_MAX
    }

    constructor ()
      ensures Valid() && entries == [] && approxBytes == 0
    {
      entries, approxBytes := [], 0;
    }

    method Put(r: Record)
      modifies this
      ensures old(Valid()) && r.ik.seqno < U64_MAX ==> Valid()
      ensures entries == Inserted(old(entries), r)
      ensures approxBytes == old(approxBytes) + |r.ik.userKey| + |r.value| + 16 == old(approxBytes) + Cost(r)
    {
      if Valid() && r.ik.seqno < U64_MAX {
        InsertedSorted(entries, r);
        forall q | q in Inserted(entries, r) ensures q.ik.seqno < U64_MAX { InsertedMembers(entries, r, q); }
      }
      approxBytes := approxBytes + (|r.ik.userKey| + |r.value| + 16);
      entries := Inserted(entries, r);
    }

    method Get(k: bytes, maxSeq: nat) returns (o: Option<Record>)
      requires Valid()
      ensures IsAnswer(Contents(entries), k, maxSeq, o)
    {
      o := Search(entries, k, maxSeq);
    }

    method RangeFrom(bound: Bound, maxSeq: nat) returns (out: seq<Record>)
      requires Valid()
      ensures out == Ranged(entries, bound, maxSeq, None)
    {
      out := Range(entries, bound, maxSeq);
    }
  }

  /** Walks the map from `(k, u64::MAX, Put)` on and stops at the first visible version. */
  method Search(entries: seq<Record>, k: bytes, maxSeq: nat) returns (o: Option<Record>)
    requires Sorted(entries) && forall r :: r in entries ==> r.ik.seqno < U64_MAX
    ensures IsAnswer(Contents(entries), k, maxSeq, o)
  {
    var start := InternalKey(k, U64_MAX, ValueKind.Put);
    for i := 0 to |entries|
      invariant forall j :: 0 <= j < i ==> !Visible(entries[j], k, maxSeq)
    {
      var e := entries[i];
      assert e in entries;
      if KeyLt(e.ik, start) {
        continue;
      } else if e.ik.userKey != k {
        NoneAfter(entries, i, k);
        return None;
      } else if e.ik.seqno <= maxSeq {
        FirstIsNewest(entries, i, k, maxSeq);
        return Some(e);
      }
    }
    o := None;
  }

  /** `range_from(bound, max_seq)` run to its end. */
  method Range(entries: seq<Record>, bound: Bound, maxSeq: nat) returns (out: seq<Record>)
    ensures out == Ranged(entries, bound, maxSeq, None)
  {
    hide PastBound;
    out := [];
    var last: Option<bytes> := None;
    for i := 0 to |entries|
      invariant Ranged(entries, bound, maxSeq, None) == out + Ranged(entries[i..], bound, maxSeq, last)
    {
      var r := entries[i];
      assert entries[i..][0] == r && entries[i..][1..] == entries[i + 1..];
      RangedStep(entries[i..], bound, maxSeq, last);
      if PastBound(bound, r.ik.userKey) && r.ik.seqno <= maxSeq && last != Some(r.ik.userKey) {
        last := Some(r.ik.userKey);
        out := out + [r];
      }
    }
    assert out + [] == out;
  }

  lemma RangedStep(rs: seq<Record>, bound: Bound, maxSeq: nat, last: Option<bytes>)
    requires rs != []
    ensures var r := rs[0];
            Ranged(rs, bound, maxSeq, last) ==
            if PastBound(bound, r.ik.userKey) && r.ik.seqno <= maxSeq && last != Some(r.ik.userKey)
            then [r] + Ranged(rs[1..], bound, maxSeq, Some(r.ik.userKey))
            else Ranged(rs[1..], bound, maxSeq, last)
  {
    hide PastBound;
    var tail := InRange(rs[1..], bound, maxSeq);
    assert ([rs[0]] + tail)[1..] == tail && [] + tail == tail;
  }

  /** Past the versions of `k` in a sorted table, the first other key ends the search. */
  lemma NoneAfter(rs: seq<Record>, i: nat, k: bytes)
    requires Sorted(rs) && i < |rs|
    requires rs[i].ik.userKey != k && !KeyLt(rs[i].ik, InternalKey(k, U64_MAX, ValueKind.Put))
    ensures forall j :: i <= j < |rs| ==> rs[j].ik.userKey != k
  {
    LtTotal(rs[i].ik.userKey, k);
    forall j | i <= j < |rs| ensures rs[j].ik.userKey != k {
      SortedKeys(rs, i, j);
      LtAsym(k, rs[i].ik.userKey);
    }
  }

  lemma FirstIsNewest(rs: seq<Record>, i: nat, k: bytes, maxSeq: nat)
    requires Sorted(rs) && i < |rs| && Visible(rs[i], k, maxSeq)
    requires forall j :: 0 <= j < i ==> !Visible(rs[j], k, maxSeq)
    ensures IsNewest(Contents(rs), k, maxSeq, rs[i])
  {
    forall q | q in rs && Visible(q, k, maxSeq) ensures q.ik.seqno <= rs[i].ik.seqno {
      var j :| 0 <= j < |rs| && rs[j] == q;
      SortedKeys(rs, i, j);
    }
  }
}
