/** Stored writes, and what it means to read a set of them. */
module Records {
  import opened ByteStrings
  import opened Keys

  /** One write as it is stored everywhere: an internal key and its value. */
  datatype Record = Record(ik: InternalKey, value: bytes)

  function Contents(rs: seq<Record>): set<Record> {
    set r | r in rs
  }

  lemma ContentsHas(rs: seq<Record>, r: Record)
    ensures r in Contents(rs) <==> r in rs
  {
  }

  /** `r` is a version of user key `k` that a reader at `maxSeq` may see. */
  predicate Visible(r: Record, k: bytes, maxSeq: nat) {
    r.ik.userKey == k && r.ik.seqno <= maxSeq
  }

  ghost predicate IsNewest(S: set<Record>, k: bytes, maxSeq: nat, r: Record) {
    && r in S && Visible(r, k, maxSeq)
    && forall q :: q in S && Visible(q, k, maxSeq) ==> q.ik.seqno <= r.ik.seqno
  }

  /** The newest version of `k` at or below `maxSeq`: the independent meaning of every
      lookup in the engine. */
  ghost function Newest(S: set<Record>, k: bytes, maxSeq: nat): (o: Option<Record>)
    ensures o.None? ==> forall r :: r in S ==> !Visible(r, k, maxSeq)
    ensures o.Some? ==> IsNewest(S, k, maxSeq, o.value)
  {
    if exists r :: r in S && Visible(r, k, maxSeq) then
      NewestExists(S, k, maxSeq);
      var r :| IsNewest(S, k, maxSeq, r);
      Some(r)
    else None
  }

  lemma {:induction false} NewestExists(S: set<Record>, k: bytes, maxSeq: nat)
    requires exists r :: r in S && Visible(r, k, maxSeq)
    ensures exists r :: IsNewest(S, k, maxSeq, r)
    decreases |S|
  {
    var r :| r in S && Visible(r, k, maxSeq);
    var rest := S - {r};
    if exists q :: q in rest && Visible(q, k, maxSeq) {
      NewestExists(rest, k, maxSeq);
      var q :| IsNewest(rest, k, maxSeq, q);
      assert IsNewest(S, k, maxSeq, if q.ik.seqno < r.ik.seqno then r else q);
    } else {
      assert IsNewest(S, k, maxSeq, r);
    }
  }

  /** `o` is a correct answer to a lookup of `k` at `maxSeq` in `S`. */
  ghost predicate IsAnswer(S: set<Record>, k: bytes, maxSeq: nat, o: Option<Record>) {
    match o
    case None => forall r :: r in S ==> !Visible(r, k, maxSeq)
    case Some(r) => IsNewest(S, k, maxSeq, r)
  }

  lemma AnswerIsNewest(S: set<Record>, k: bytes, maxSeq: nat, o: Option<Record>)
    requires OneWritePerSeq(S) && IsAnswer(S, k, maxSeq, o)
    ensures o == Newest(S, k, maxSeq)
  {
  }

  /** A sequence number names one write. */
  ghost predicate OneWritePerSeq(S: set<Record>) {
    forall r, q :: r in S && q in S && r.ik.seqno == q.ik.seqno ==> r == q
  }

  lemma NewestIs(S: set<Record>, k: bytes, maxSeq: nat, r: Record)
    requires OneWritePerSeq(S) && IsNewest(S, k, maxSeq, r)
    ensures Newest(S, k, maxSeq) == Some(r)
  {
  }

  lemma NewestNone(S: set<Record>, k: bytes, maxSeq: nat)
    requires forall r :: r in S ==> !Visible(r, k, maxSeq)
    ensures Newest(S, k, maxSeq) == None
  {
  }

  /** What the caller of a read sees: a tombstone and an absent key look alike. */
  function ValueOf(o: Option<Record>): Option<bytes> {
    match o
    case None => None
    case Some(r) => if r.ik.kind == Put then Some(r.value) else None
  }

  // ---------------------------------------------------------------- sorted runs

  /** Strictly increasing internal keys: a memtable or a table file. */
  ghost predicate Sorted(rs: seq<Record>) {
    forall i, j :: 0 <= i < j < |rs| ==> KeyLt(rs[i].ik, rs[j].ik)
  }

  lemma SortedKeys(rs: seq<Record>, i: nat, j: nat)
    requires Sorted(rs) && i <= j < |rs|
    ensures Leq(rs[i].ik.userKey, rs[j].ik.userKey)
    ensures i < j && rs[i].ik.userKey == rs[j].ik.userKey ==> rs[j].ik.seqno <= rs[i].ik.seqno
  {
    if i < j { assert KeyLt(rs[i].ik, rs[j].ik); }
  }

  /** Non-decreasing internal keys: a merge, where two sources may hold the same record. */
  ghost predicate WeaklySorted(rs: seq<Record>) {
    forall i, j :: 0 <= i < j < |rs| ==> !KeyLt(rs[j].ik, rs[i].ik)
  }

  /** At most one record per user key, keys increasing. */
  ghost predicate KeysIncrease(rs: seq<Record>) {
    forall i, j :: 0 <= i < j < |rs| ==> Lt(rs[i].ik.userKey, rs[j].ik.userKey)
  }

  lemma KeysIncreaseSorted(rs: seq<Record>)
    requires KeysIncrease(rs)
    ensures Sorted(rs)
  {
    forall i, j | 0 <= i < j < |rs| ensures KeyLt(rs[i].ik, rs[j].ik) {
      LtAsym(rs[i].ik.userKey, rs[j].ik.userKey);
    }
  }

  function VisibleOnly(rs: seq<Record>, maxSeq: nat): (out: seq<Record>)
    ensures forall r :: r in out <==> r in rs && r.ik.seqno <= maxSeq
  {
    if rs == [] then []
    else (if rs[0].ik.seqno <= maxSeq then [rs[0]] else []) + VisibleOnly(rs[1..], maxSeq)
  }

  lemma {:induction false} VisibleOnlySorted(rs: seq<Record>, maxSeq: nat)
    requires Sorted(rs)
    ensures Sorted(VisibleOnly(rs, maxSeq))
  {
    if rs != [] {
      VisibleOnlySorted(rs[1..], maxSeq);
      var tail := VisibleOnly(rs[1..], maxSeq);
      forall r | r in tail ensures KeyLt(rs[0].ik, r.ik) {
        var i :| 0 <= i < |rs[1..]| && rs[1..][i] == r;
        assert rs[i + 1] == r;
      }
    }
  }
}
