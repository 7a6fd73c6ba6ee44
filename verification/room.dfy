/** When there is room: writes of moderate size fit the formats in every way the engine may ever
    cut their history into logs and tables. */
module Room {
  import opened ByteStrings
  import opened Keys
  import opened Records
  import opened Blocks
  import opened Builder
  import opened Reader
  import opened WriteAheadLog
  import opened Histories
  import opened DbFacts
  import opened EngineOptions
  import Bloom
  import DatabaseOpen
  import Engine
  import EngineRecover
  import MemTables

  const TWO62 := 0x4000_0000_0000_0000

  /** A generous bound of what a record costs in any format. */
  function Bulk(r: Record): nat {
    |r.ik.userKey| + |r.value| + 64
  }

  function BulkOf(rs: seq<Record>): nat {
    if rs == [] then 0 else BulkOf(rs[..|rs| - 1]) + Bulk(rs[|rs| - 1])
  }

  function RawBulk(es: seq<Raw>): nat {
    if es == [] then 0 else |es[0].key| + |es[0].value| + 56 + RawBulk(es[1..])
  }

  // ---------------------------------------------------------------- a run is part of the history

  lemma {:induction false} BulkSplit(a: seq<Record>, b: seq<Record>)
    ensures BulkOf(a + b) == BulkOf(a) + BulkOf(b)
  {
    if b == [] {
      assert a + b == a;
    } else {
      hide Bulk;
      BulkSplit(a, b[..|b| - 1]);
      assert (a + b)[..|a + b| - 1] == a + b[..|b| - 1];
    }
  }

  lemma BulkWithout(H: History, i: nat)
    requires i < |H|
    ensures BulkOf(H) == BulkOf(H[..i] + H[i + 1..]) + Bulk(H[i])
  {
    hide *;
    BulkSplit(H[..i], H[i + 1..]);
    BulkSplit(H[..i + 1], H[i + 1..]);
    BulkStep(H[..i + 1]);
    assert H[..i + 1][..i] == H[..i];
    assert H[..i + 1] + H[i + 1..] == H;
  }

  lemma BulkStep(rs: seq<Record>)
    requires rs != []
    ensures BulkOf(rs) == BulkOf(rs[..|rs| - 1]) + Bulk(rs[|rs| - 1])
  {
  }

  /** A sorted run holds no record twice, so it is no longer and no bulkier than the history it is
      drawn from. */
  lemma {:induction false} RunBulk(rs: seq<Record>, H: History)
    requires Sorted(rs) && forall r :: r in rs ==> r in H
    ensures BulkOf(rs) <= BulkOf(H) && |rs| <= |H|
  {
    if rs != [] {
      hide BulkOf, Bulk, KeyLt;
      var front, r := rs[..|rs| - 1], rs[|rs| - 1];
      assert r in rs && r in H;
      var i :| 0 <= i < |H| && H[i] == r;
      var H' := H[..i] + H[i + 1..];
      NoneTwice(rs);
      forall q | q in front ensures q in H' {
        var j :| 0 <= j < |front| && front[j] == q;
        assert rs[j] == q && q in H;
        var k :| 0 <= k < |H| && H[k] == q;
        assert k != i;
        assert H'[if k < i then k else k - 1] == q;
      }
      RunBulk(front, H');
      BulkWithout(H, i);
      BulkStep(rs);
    } else {
      assert BulkOf(rs) == 0;
    }
  }

  lemma NoneTwice(rs: seq<Record>)
    requires Sorted(rs)
    ensures forall i, j :: 0 <= i < j < |rs| ==> rs[i] != rs[j]
  {
    forall i, j | 0 <= i < j < |rs| ensures rs[i] != rs[j] { CmpEqual(rs[i].ik, rs[j].ik); }
  }

  // ---------------------------------------------------------------- sizes of the parts of a table

  lemma {:induction false} RawBulkSplit(a: seq<Raw>, b: seq<Raw>)
    ensures RawBulk(a + b) == RawBulk(a) + RawBulk(b)
  {
    if a == [] {
      assert a + b == b;
    } else {
      RawBulkSplit(a[1..], b);
      assert (a + b)[1..] == a[1..] + b;
    }
  }

  lemma {:induction false} RawBulkOf(rs: seq<Record>)
    ensures RawBulk(Raws(rs)) == BulkOf(rs)
  {
    if rs != [] {
      var front, r := rs[..|rs| - 1], rs[|rs| - 1];
      RawBulkOf(front);
      RawBulkSplit(Raws(front), [RawOf(r)]);
      assert [RawOf(r)][1..] == [];
      assert RawBulk([RawOf(r)]) == Bulk(r);
    }
  }

  lemma {:induction false} EntriesSize(es: seq<Raw>)
    ensures |EntriesBytes(es)| + 48 * |es| == RawBulk(es)
  {
    if es != [] { EntriesSize(es[1..]); }
  }

  lemma {:induction false} LastBulk(c: seq<Raw>)
    requires c != []
    ensures |Separator(c)| + 56 <= RawBulk(c)
  {
    var front, e := c[..|c| - 1], c[|c| - 1];
    RawBulkSplit(front, [e]);
    assert front + [e] == c;
    assert RawBulk([e]) == |e.key| + |e.value| + 56 by { assert [e][1..] == []; }
  }

  lemma BlockSize(c: seq<Raw>)
    requires c != []
    ensures |BlockBytes(c)| <= RawBulk(c) && |c| <= RawBulk(c)
  {
    EntriesSize(c);
  }

  lemma {:induction false} IndexBytesSplit(a: seq<IndexEntry>, b: seq<IndexEntry>)
    ensures IndexEntriesBytes(a + b) == IndexEntriesBytes(a) + IndexEntriesBytes(b)
  {
    hide *;
    IndexBytesStep(a);
    IndexBytesStep(a + b);
    if a == [] {
      assert a + b == b;
    } else {
      IndexBytesSplit(a[1..], b);
      assert (a + b)[1..] == a[1..] + b;
    }
  }

  lemma IndexBytesStep(es: seq<IndexEntry>)
    ensures IndexEntriesBytes(es) == if es == [] then [] else IndexEntryBytes(es[0]) + IndexEntriesBytes(es[1..])
  {
    hide IndexEntryBytes;
  }

  /** Blocks and index of a table, block by block. */
  lemma {:induction false} BlocksSize(cs: seq<seq<Raw>>)
    requires NoEmptyBlock(cs)
    ensures |cs| <= |Flatten(cs)| && |Data(cs)| <= RawBulk(Flatten(cs))
    ensures |IndexEntriesBytes(Index(cs))| <= RawBulk(Flatten(cs))
  {
    hide *;
    if cs == [] {
      NoBlocks();
    } else {
      var front, c := cs[..|cs| - 1], cs[|cs| - 1];
      assert cs == front + [c];
      LastBlock(cs);
      BlocksSize(front);
      BlockSize(c);
      LastBulk(c);
      RawBulkSplit(Flatten(front), c);
      var e := IndexEntry(Separator(c), |Data(front)|, |BlockBytes(c)|);
      IndexBytesSplit(Index(front), [e]);
      OneEntry(e);
    }
  }

  lemma NoBlocks()
    ensures Data([]) == [] && IndexEntriesBytes(Index([])) == [] && Flatten([]) == []
  {
  }

  /** What the last block adds. */
  lemma LastBlock(cs: seq<seq<Raw>>)
    requires NoEmptyBlock(cs) && cs != []
    ensures var front, c := cs[..|cs| - 1], cs[|cs| - 1];
            && NoEmptyBlock(front) && c != []
            && Flatten(cs) == Flatten(front) + c && |Data(cs)| == |Data(front)| + |BlockBytes(c)|
            && Index(cs) == Index(front) + [IndexEntry(Separator(c), |Data(front)|, |BlockBytes(c)|)]
  {
    hide BlockBytes, Separator;
    var front := cs[..|cs| - 1];
    assert cs[|cs| - 1] in cs;
    forall x | x in front ensures x != [] {
      var i :| 0 <= i < |front| && front[i] == x;
      assert cs[i] in cs;
    }
  }

  lemma OneEntry(e: IndexEntry)
    ensures |IndexEntriesBytes([e])| == |e.sep| + 16
  {
    assert [e][1..] == [];
  }

  lemma {:induction false} UserKeysCount(rs: seq<Record>)
    ensures |UserKeys(rs)| == |rs|
  {
    if rs != [] { UserKeysCount(rs[..|rs| - 1]); }
  }

  lemma FilterSize(fmt: Format, rs: seq<Record>)
    requires |rs| * Bloom.Max(fmt.bitsPerKey, 1) < 2 * TWO62
    ensures FilterOf(fmt, rs).nbits < 2 * TWO62 && |Bloom.Encode(FilterOf(fmt, rs))| < TWO62
  {
    FilterBits(fmt, rs);
    hide FilterOf, Bloom.Encode;
  }

  lemma FilterBits(fmt: Format, rs: seq<Record>)
    ensures var f := FilterOf(fmt, rs);
            f.nbits == Bloom.Max(|rs| * Bloom.Max(fmt.bitsPerKey, 1), 64) && |Bloom.Encode(f)| == 12 + (f.nbits + 7) / 8
  {
    hide Bloom.SetKeys;
    UserKeysCount(rs);
  }

  lemma Product(a: nat, b: nat, m: nat)
    requires a <= b && b * m < 2 * TWO62
    ensures a * m < 2 * TWO62
  {
    var x := b - a;
    assert x * m >= 0;
    assert (a + x) * m == a * m + x * m;
  }

  // ---------------------------------------------------------------- how many blocks

  lemma {:induction false} EstimatedBelow(c: seq<Raw>)
    ensures EstimatedSize(c) <= RawBulk(c)
  {
    EstimatedIs(c);
    EntriesSize(c);
  }

  /** Every block but the last is filled to the block size. */
  lemma {:induction false} FilledBlocks(cs: seq<seq<Raw>>, size: nat)
    requires forall i :: 0 <= i < |cs| ==> EstimatedSize(cs[i]) >= size
    ensures |cs| * size <= RawBulk(Flatten(cs))
  {
    hide EstimatedSize, RawBulk;
    if cs != [] {
      var front, c := cs[..|cs| - 1], cs[|cs| - 1];
      FilledBlocks(front, size);
      EstimatedBelow(c);
      RawBulkSplit(Flatten(front), c);
      assert |cs| * size == |front| * size + size;
    }
  }

  lemma BlockCount(fmt: Format, rs: seq<Record>)
    ensures |ChunksOf(fmt, rs)| <= |rs|
    ensures |ChunksOf(fmt, rs)| * fmt.blockSize <= BulkOf(rs) + fmt.blockSize
  {
    hide *;
    ChunksKeepAll(fmt, rs);
    RawsLength(rs);
    BlocksSize(ChunksOf(fmt, rs));
    CutsBySize(rs, fmt.blockSize);
    CutKeepsAll(rs, fmt.blockSize);
    RawBulkOf(rs);
    var cut := Cut(rs, fmt.blockSize);
    ClosedIs(fmt, rs);
    forall i | 0 <= i < |cut.closed| ensures EstimatedSize(cut.closed[i]) >= fmt.blockSize {
      CutHereIs(cut.closed[i], fmt.blockSize);
    }
    FilledBlocks(cut.closed, fmt.blockSize);
    RawBulkSplit(Flatten(cut.closed), cut.open);
    Times(|ChunksOf(fmt, rs)|, |cut.closed|, fmt.blockSize);
  }

  lemma Times(a: nat, b: nat, m: nat)
    requires a <= b + 1
    ensures a * m <= b * m + m
  {
    var x := b + 1 - a;
    assert a + x == b + 1 && x * m >= 0;
    assert (a + x) * m == a * m + x * m;
    assert (b + 1) * m == b * m + m;
  }

  lemma CutHereIs(c: seq<Raw>, size: nat)
    ensures CutHere(c, size) ==> EstimatedSize(c) >= size
  {
  }

  lemma ClosedIs(fmt: Format, rs: seq<Record>)
    ensures |ChunksOf(fmt, rs)| <= |Cut(rs, fmt.blockSize).closed| + 1
  {
    hide Cut;
  }

  /** Few enough blocks: few writes, or few bytes for the block size. */
  predicate FewBlocks(fmt: Format, n: nat, bulk: nat) {
    n < TWO32 || bulk < (TWO32 - 2) * fmt.blockSize
  }

  lemma CountFits(fmt: Format, rs: seq<Record>)
    requires FewBlocks(fmt, |rs|, BulkOf(rs))
    ensures |ChunksOf(fmt, rs)| < TWO32
  {
    hide ChunksOf, BulkOf;
    BlockCount(fmt, rs);
  }

  // ---------------------------------------------------------------- sizes of the blocks

  /** One write together with a block fits 32 bits, its key twice, too. */
  ghost predicate Moderate(fmt: Format, r: Record) {
    fmt.blockSize + |r.ik.userKey| + |r.value| + 64 < TWO32 && ShortKey(r) && r.ik.seqno < TWO56
  }

  lemma {:induction false} EstimatedIs(es: seq<Raw>)
    ensures |EntriesBytes(es)| == EstimatedSize(es) && 8 * |es| <= EstimatedSize(es)
  {
    if es != [] {
      var front, e := es[..|es| - 1], es[|es| - 1];
      EstimatedIs(front);
      EntriesSize(es);
      EntriesSize(front);
      RawBulkSplit(front, [e]);
      assert front + [e] == es;
      assert RawBulk([e]) == |e.key| + |e.value| + 56 by { assert [e][1..] == []; }
    }
  }

  lemma {:induction false} RawsMember(rs: seq<Record>, e: Raw)
    requires e in Raws(rs)
    ensures exists r :: r in rs && e == RawOf(r)
  {
    hide RawOf;
    var front, r := rs[..|rs| - 1], rs[|rs| - 1];
    assert rs == front + [r];
    if e in Raws(front) { RawsMember(front, e); }
  }

  lemma {:induction false} RawsLength(rs: seq<Record>)
    ensures |Raws(rs)| == |rs|
  {
    hide RawOf;
    if rs != [] { RawsLength(rs[..|rs| - 1]); }
  }

  /** A block is below the block size before its last entry comes in. */
  lemma BlockFits(fmt: Format, rs: seq<Record>, c: seq<Raw>)
    requires c in ChunksOf(fmt, rs) && forall r :: r in rs ==> Moderate(fmt, r)
    ensures |c| < TWO32 && |BlockBytes(c)| < TWO32
  {
    var cuts := Cut(rs, fmt.blockSize);
    hide Cut, Raws, Flatten, EstimatedSize, EntriesBytes;
    CutsBySize(rs, fmt.blockSize);
    CutKeepsAll(rs, fmt.blockSize);
    EstimatedIs(c);
    if c in cuts.closed {
      var i :| 0 <= i < |cuts.closed| && cuts.closed[i] == c;
      assert CutHere(cuts.closed[i], fmt.blockSize);
      FlattenHas(cuts.closed, i, c[|c| - 1]);
    }
    var e := c[|c| - 1];
    assert e in Flatten(cuts.closed) + cuts.open;
    RawsMember(rs, e);
    var r :| r in rs && e == RawOf(r);
    RawSize(r);
    LastEstimate(c);
    assert Moderate(fmt, r);
  }

  lemma RawSize(r: Record)
    ensures |RawOf(r).key| == |r.ik.userKey| + 8 && RawOf(r).value == r.value
  {
  }

  lemma LastEstimate(c: seq<Raw>)
    requires c != []
    ensures EstimatedSize(c) == EstimatedSize(c[..|c| - 1]) + |c[|c| - 1].key| + |c[|c| - 1].value| + 8
    ensures |c| == 1 ==> EstimatedSize(c[..|c| - 1]) == 0
  {
  }

  /** Every run of moderate writes fits a table file. */
  lemma RunFits(fmt: Format, rs: seq<Record>)
    requires FewBlocks(fmt, |rs|, BulkOf(rs)) && BulkOf(rs) < TWO62 && |rs| * Bloom.Max(fmt.bitsPerKey, 1) < 2 * TWO62
    requires forall r :: r in rs ==> Moderate(fmt, r)
    ensures FitsTable(fmt, rs)
  {
    hide *;
    var cs := ChunksOf(fmt, rs);
    ChunksKeepAll(fmt, rs);
    RawBulkOf(rs);
    RawsLength(rs);
    BlocksSize(cs);
    CountFits(fmt, rs);
    FilterSize(fmt, rs);
    TableSize(fmt, rs);
    forall c | c in cs ensures |c| < TWO32 && |BlockBytes(c)| < TWO32 { BlockFits(fmt, rs, c); }
    forall r | r in rs ensures FitsEntry(r) { EntryFits(fmt, r); }
    FitsTableIs(fmt, rs);
  }

  lemma EntryFits(fmt: Format, r: Record)
    requires Moderate(fmt, r)
    ensures FitsEntry(r) && FitsRecord(r) && ShortKey(r)
  {
    hide Le;
    RecordFields(r);
  }

  lemma TableSize(fmt: Format, rs: seq<Record>)
    ensures var cs := ChunksOf(fmt, rs);
            |TableBytes(fmt, rs)| == |Data(cs)| + 4 + |IndexEntriesBytes(Index(cs))|
                + |Bloom.Encode(FilterOf(fmt, rs))| + FOOTER_SIZE
  {
    hide ChunksOf, FilterOf, Data, Index, IndexEntriesBytes, Bloom.Encode;
  }

  lemma FitsTableIs(fmt: Format, rs: seq<Record>)
    requires var cs := ChunksOf(fmt, rs);
             && (forall r :: r in rs ==> FitsEntry(r)) && |cs| < TWO32
             && (forall c :: c in cs ==> |c| < TWO32 && |BlockBytes(c)| < TWO32)
             && |Data(cs)| < TWO62 && |IndexEntriesBytes(Index(cs))| < TWO62
             && |Bloom.Encode(FilterOf(fmt, rs))| < TWO62 && FilterOf(fmt, rs).nbits < 2 * TWO62
             && |TableBytes(fmt, rs)| == |Data(cs)| + 4 + |IndexEntriesBytes(Index(cs))|
                 + |Bloom.Encode(FilterOf(fmt, rs))| + FOOTER_SIZE
    ensures FitsTable(fmt, rs)
  {
    hide ChunksOf, FilterOf, TableBytes, BlockBytes, FitsEntry, Data, Index, IndexEntriesBytes, Bloom.Encode;
  }

  /** The assumption about sizes that the database object makes, from what a caller can check: few
      enough writes, or few enough bytes for the block size, that no table can need 2^32 blocks;
      each write with a block below 4 GiB and with a key below 2 GiB; below 2^62 bytes in all
      counting 64 more for each write, below 2^63 filter bits; sequence numbers below 2^56. */
  lemma HistoryHasRoom(fmt: Format, H: History)
    requires FewBlocks(fmt, |H|, BulkOf(H)) && BulkOf(H) < TWO62 && |H| * Bloom.Max(fmt.bitsPerKey, 1) < 2 * TWO62
    requires forall r :: r in H ==> Moderate(fmt, r)
    ensures RoomFor(fmt, H)
  {
    hide *;
    forall r | r in H ensures FitsRecord(r) && ShortKey(r) { EntryFits(fmt, r); }
    forall rs | Sorted(rs) && Contents(rs) <= Contents(H) ensures FitsTable(fmt, rs) {
      forall r | r in rs ensures r in H { ContentsHas(rs, r); ContentsHas(H, r); }
      RunBulk(rs, H);
      Product(|rs|, |H|, Bloom.Max(fmt.bitsPerKey, 1));
      FewBlocksIs(fmt, H, rs);
      RunFits(fmt, rs);
    }
    RoomIs(fmt, H);
  }

  lemma FewBlocksIs(fmt: Format, H: History, rs: seq<Record>)
    requires FewBlocks(fmt, |H|, BulkOf(H)) && |rs| <= |H| && BulkOf(rs) <= BulkOf(H)
    ensures FewBlocks(fmt, |rs|, BulkOf(rs))
  {
    hide BulkOf;
  }

  lemma RoomIs(fmt: Format, H: History)
    requires forall r :: r in H ==> FitsRecord(r) && ShortKey(r)
    requires forall rs :: Sorted(rs) && Contents(rs) <= Contents(H) ==> FitsTable(fmt, rs)
    ensures RoomFor(fmt, H)
  {
    hide FitsTable, FitsRecord, Sorted;
  }

  /** A directory with neither manifest nor log is a good disk with the empty history: the premises
      of `OpenDb` and `Reopen` can be met. */
  lemma EmptyDirectoryGood(o: Options, dir: Dir)
    ensures DatabaseOpen.Good(o, None, None, dir, Engine.Disk(None, None, false, map[]), [])
  {
    hide *;
    var d := Engine.Disk(None, None, false, map[]);
    NoBulk();
    HistoryHasRoom(o.fmt, []);
    EngineRecover.EmptyRecoverable(o, map[]);
    EngineRecover.OpenFields(o, d);
    EngineRecover.EditsIs(d);
    EngineRecover.FirstEdits(0, 0);
    NoSeq();
    DatabaseOpen.GivesBackIs(o, d, []);
    DatabaseOpen.FilesOfIs(o.fmt.hash, d);
    BytesOfIs(o.fmt, dir, d.files);
    assert d.files.Keys == DatabaseOpen.ListedNums(d);
    DatabaseOpen.HoldsDiskIs(o, None, None, dir, d);
    DatabaseOpen.GoodIs(o, None, None, dir, d, []);
  }

  lemma NoBulk()
    ensures BulkOf([]) == 0 < TWO62 && forall fmt :: FewBlocks(fmt, 0, 0)
  {
  }

  lemma NoSeq()
    ensures Engine.MaxSeqFrom(0, []) == 0 < MemTables.U64_MAX
  {
  }
}
