/** The abstract specification, a history of writes, and when a stack of sources is faithful to it. */
module Histories {
  import opened ByteStrings
  import opened Keys
  import opened Records
  import opened Sources

  /** Writes in the order they were accepted, sequence numbers increasing. */
  type History = seq<Record>

  ghost predicate Increasing(H: History) {
    forall i, j :: 0 <= i < j < |H| ==> H[i].ik.seqno < H[j].ik.seqno
  }

  function LastWrite(H: History, k: bytes): Option<Record> {
    if H == [] then None
    else if H[|H| - 1].ik.userKey == k then Some(H[|H| - 1])
    else LastWrite(H[..|H| - 1], k)
  }

  ghost predicate NoKey(S: Source, k: bytes) {
    forall r :: r in S ==> r.ik.userKey != k
  }

  /** The sources answer for `k`: they hold its last write, or that write is a tombstone and
      they hold no version of the key at all. */
  ghost predicate Covers(S: Source, H: History, k: bytes) {
    match LastWrite(H, k)
    case None => NoKey(S, k)
    case Some(w) => w in S || (w.ik.kind == Delete && NoKey(S, k))
  }

  /** The invariant of the engine, in memory and on disk alike. */
  ghost predicate Faithful(ss: seq<Source>, H: History) {
    && Ordered(ss)
    && Union(ss) <= Contents(H)
    && forall k :: Covers(Union(ss), H, k)
  }

  // ---------------------------------------------------------------- histories

  lemma IncreasingUnique(H: History)
    requires Increasing(H)
    ensures OneWritePerSeq(Contents(H))
  {
    forall r, q | r in Contents(H) && q in Contents(H) && r.ik.seqno == q.ik.seqno ensures r == q {
      var i :| 0 <= i < |H| && H[i] == r;
      var j :| 0 <= j < |H| && H[j] == q;
    }
  }

  lemma {:induction false} LastWriteIsNewest(H: History, k: bytes)
    requires Increasing(H)
    ensures LastWrite(H, k).None? ==> NoKey(Contents(H), k)
    ensures LastWrite(H, k).Some? ==> var w := LastWrite(H, k).value;
              && w in H && w.ik.userKey == k
              && forall r :: r in H && r.ik.userKey == k ==> r.ik.seqno <= w.ik.seqno
  {
    if H != [] {
      var front, last := H[..|H| - 1], H[|H| - 1];
      assert H == front + [last];
      IncreasingPrefix(front, last);
      hide Increasing;
      LastWriteIsNewest(front, k);
    }
  }

  lemma LastWriteStep(H: History, r: Record, k: bytes)
    ensures LastWrite(H + [r], k) == if r.ik.userKey == k then Some(r) else LastWrite(H, k)
  {
    assert (H + [r])[..|H|] == H;
  }

  lemma SubsetUnique(S: Source, T: Source)
    requires S <= T && OneWritePerSeq(T)
    ensures OneWritePerSeq(S)
  {
  }

  /** Reading faithful sources at or past the last write gives the last write of each key. */
  lemma FaithfulReads(ss: seq<Source>, H: History, k: bytes, maxSeq: nat)
    requires Increasing(H) && Faithful(ss, H)
    requires forall r :: r in H ==> r.ik.seqno <= maxSeq
    ensures ValueOf(FirstHit(ss, k, maxSeq)) == ValueOf(LastWrite(H, k))
  {
    var S := Union(ss);
    IncreasingUnique(H);
    SubsetUnique(S, Contents(H));
    WalkIsNewest(ss, k, maxSeq);
    LastWriteIsNewest(H, k);
    assert Covers(S, H, k);
    var w := LastWrite(H, k);
    hide OneWritePerSeq, LastWrite, FirstHit;
    if w.Some? && w.value in S {
      NewestIs(S, k, maxSeq, w.value);
    } else {
      NewestNone(S, k, maxSeq);
    }
  }

  /** A database that holds every version also answers every earlier read position. */
  function UpTo(H: History, s: nat): History {
    if H == [] then []
    else if H[|H| - 1].ik.seqno <= s then H
    else UpTo(H[..|H| - 1], s)
  }

  lemma {:induction false} UpToMembers(H: History, s: nat)
    requires Increasing(H)
    ensures Increasing(UpTo(H, s))
    ensures forall r :: r in UpTo(H, s) <==> r in H && r.ik.seqno <= s
  {
    if H != [] && H[|H| - 1].ik.seqno > s {
      var front := H[..|H| - 1];
      UpToMembers(front, s);
      assert H == front + [H[|H| - 1]];
    }
  }

  lemma CompleteReads(ss: seq<Source>, H: History, k: bytes, s: nat)
    requires Increasing(H) && Ordered(ss) && Union(ss) == Contents(H)
    ensures FirstHit(ss, k, s) == LastWrite(UpTo(H, s), k)
  {
    IncreasingUnique(H);
    WalkIsNewest(ss, k, s);
    UpToMembers(H, s);
    LastWriteIsNewest(UpTo(H, s), k);
    hide OneWritePerSeq, LastWrite, FirstHit;
    var w := LastWrite(UpTo(H, s), k);
    if w.Some? {
      NewestIs(Union(ss), k, s, w.value);
    } else {
      NewestNone(Union(ss), k, s);
    }
  }

  // ---------------------------------------------------------------- steps that keep faith

  ghost predicate NewerThanAll(H: History, r: Record) {
    forall q :: q in H ==> q.ik.seqno < r.ik.seqno
  }

  lemma IncreasingStep(H: History, r: Record)
    requires Increasing(H) && NewerThanAll(H, r)
    ensures Increasing(H + [r])
  {
  }

  lemma IncreasingPrefix(H: History, r: Record)
    requires Increasing(H + [r])
    ensures Increasing(H) && NewerThanAll(H, r)
  {
    var G := H + [r];
    assert forall i :: 0 <= i < |H| ==> G[i] == H[i];
    assert G[|H|] == r;
  }

  /** A write goes into the newest source. */
  lemma WriteKeepsFaith(ss: seq<Source>, H: History, r: Record)
    requires ss != [] && Faithful(ss, H) && NewerThanAll(H, r)
    ensures Faithful([ss[0] + {r}] + ss[1..], H + [r])
  {
    var tt := [ss[0] + {r}] + ss[1..];
    assert ss == [ss[0]] + ss[1..] && tt[1..] == ss[1..];
    assert Union(tt) == Union(ss) + {r};
    forall i, j | 0 <= i < j < |tt| ensures Shadows(tt[i], tt[j]) {
      assert Shadows(ss[i], ss[j]);
      if i == 0 {
        forall x | x in tt[j] ensures x in H {
          UnionMembers(ss, x);
        }
      }
    }
    forall k ensures Covers(Union(tt), H + [r], k) {
      assert Covers(Union(ss), H, k);
      LastWriteStep(H, r, k);
    }
  }

  /** Logging several writes, one after the other, into the newest source. */
  lemma {:induction false} WritesKeepFaith(ss: seq<Source>, H: History, more: seq<Record>)
    requires ss != [] && Faithful(ss, H) && Increasing(H + more)
    ensures Faithful([ss[0] + Contents(more)] + ss[1..], H + more)
    decreases |more|
  {
    if more == [] {
      assert H + more == H && ss[0] + Contents(more) == ss[0] && ss == [ss[0]] + ss[1..];
    } else {
      var front, last := more[..|more| - 1], more[|more| - 1];
      assert H + more == (H + front) + [last];
      IncreasingPrefix(H + front, last);
      hide Covers, Ordered, Increasing, LastWrite;
      WritesKeepFaith(ss, H, front);
      var mid := [ss[0] + Contents(front)] + ss[1..];
      WriteKeepsFaith(mid, H + front, last);
      assert more == front + [last];
      assert ss[0] + Contents(front) + {last} == ss[0] + Contents(more);
    }
  }

  lemma SameUnionFaithful(ss: seq<Source>, tt: seq<Source>, H: History)
    requires Faithful(ss, H) && Ordered(tt) && Union(tt) == Union(ss)
    ensures Faithful(tt, H)
  {
  }

  /** A source that is a part of the newest one may be repeated right after it, if it shadows
      what follows: this is a flushed memtable whose records are still in the log. */
  lemma RepeatKeepsFaith(x: Source, W: Source, T: seq<Source>, H: History)
    requires Faithful([W] + T, H) && x <= W && Ordered([x] + T)
    ensures Faithful([W, x] + T, H)
  {
    hide Covers;
    var prev, ss := [W] + T, [W, x] + T;
    forall i, j | 0 <= i < j < |ss| ensures Shadows(ss[i], ss[j]) {
      if i == 0 && j > 1 {
        assert Shadows(prev[0], prev[j - 1]);
      } else if i > 0 {
        assert Shadows(([x] + T)[i - 1], ([x] + T)[j - 1]);
      }
    }
    UnionSplit([W, x], T);
    UnionSplit([W], T);
    assert [W, x][1..] == [x] && Union([W, x]) == W + x == Union([W]) by { assert [x][1..] == [] && [W][1..] == []; }
  }

  /** Dropping sources keeps the order of the rest. */
  lemma OrderedDrop(a: seq<Source>, b: seq<Source>, c: seq<Source>)
    requires Ordered(a + b + c)
    ensures Ordered(a + c)
  {
    hide Shadows;
    var all, ss := a + b + c, a + c;
    forall i, j | 0 <= i < j < |ss| ensures Shadows(ss[i], ss[j]) {
      var i' := if i < |a| then i else i + |b|;
      var j' := if j < |a| then j else j + |b|;
      assert ss[i] == all[i'] && ss[j] == all[j'];
    }
  }

  lemma EmptySource(a: seq<Source>, c: seq<Source>)
    requires Ordered(a + c)
    ensures Ordered(a + [{}] + c) && Union(a + [{}] + c) == Union(a + c)
  {
    var ss, prev := a + [{}] + c, a + c;
    forall i, j | 0 <= i < j < |ss| ensures Shadows(ss[i], ss[j]) {
      if i != |a| && j != |a| {
        var i' := if i < |a| then i else i - 1;
        var j' := if j < |a| then j else j - 1;
        assert ss[i] == prev[i'] && ss[j] == prev[j'];
        assert Shadows(prev[i'], prev[j']);
      } else {
        assert ss[|a|] == {};
      }
    }
    UnionSplit(a, c);
    UnionSplit(a + [{}], c);
    var e: seq<Source> := [{}];
    UnionSplit(a, e);
    assert Union(e) == {} by { assert e[1..] == []; }
  }
}
