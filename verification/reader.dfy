/** Opening and querying table files, and the block cache (src/sstable/reader.rs). */
module Reader {
  import opened ByteStrings
  import opened Keys
  import opened Records
  import opened Blocks
  import opened Builder
  import Bloom

  /** An open table: what `SsTable` keeps in memory. */
  datatype SsTable = SsTable(num: nat, smallest: bytes, largest: bytes, fileSize: nat,
                             index: seq<IndexEntry>, bloom: Bloom.BloomFilter)

  /** Seek and `read_exact`: fails when the file ends first. */
  function ReadAt(file: bytes, off: nat, len: nat): Result<bytes> {
    if off + len > |file| then Corrupt else Ok(file[off..off + len])
  }

  function Open(file: bytes, num: nat, smallest: bytes, largest: bytes): Result<SsTable> {
    if |file| < FOOTER_SIZE then Corrupt
    else
      var footer := file[|file| - FOOTER_SIZE..];
      if FromLe(footer[0..4]) != SST_MAGIC then Corrupt
      else
        var indexOff, indexLen := FromLe(footer[12..20]), FromLe(footer[20..28]);
        var bloomOff, bloomLen := FromLe(footer[28..36]), FromLe(footer[36..44]);
        match ReadAt(file, indexOff, indexLen)
        case Corrupt => Corrupt
        case Ok(indexBuf) =>
          match IndexOf(indexBuf)
          case Corrupt => Corrupt
          case Ok(index) =>
            match ReadAt(file, bloomOff, bloomLen)
            case Corrupt => Corrupt
            case Ok(bloomBuf) =>
              match Bloom.Decode(bloomBuf)
              case Corrupt => Corrupt
              case Ok(bloom) => Ok(SsTable(num, smallest, largest, |file|, index, bloom))
  }

  // ---------------------------------------------------------------- opening what the builder wrote

  /** Lengths, offsets and sequence numbers fit the fields the format gives them. */
  ghost predicate FitsTable(fmt: Format, rs: seq<Record>) {
    var cs := ChunksOf(fmt, rs);
    && (forall r :: r in rs ==> FitsEntry(r))
    && |cs| < TWO32
    && (forall c :: c in cs ==> |c| < TWO32 && |BlockBytes(c)| < TWO32)
    && |TableBytes(fmt, rs)| < TWO64
    && FilterOf(fmt, rs).nbits < TWO64
  }

  /** The open table a run's file gives. */
  function TableOf(fmt: Format, rs: seq<Record>, num: nat, smallest: bytes, largest: bytes): SsTable {
    SsTable(num, smallest, largest, |TableBytes(fmt, rs)|, Index(ChunksOf(fmt, rs)), FilterOf(fmt, rs))
  }

  lemma FooterFields(a: nat, b: nat, c: nat, d: nat, e: nat)
    requires a < TWO64 && b < TWO64 && c < TWO64 && d < TWO64 && e < TWO64
    ensures var f := Footer(a, b, c, d, e);
            && FromLe(f[0..4]) == SST_MAGIC && FromLe(f[12..20]) == b && FromLe(f[20..28]) == c
            && FromLe(f[28..36]) == d && FromLe(f[36..44]) == e
  {
    hide Le, FromLe;
    var f := Footer(a, b, c, d, e);
    Le4(SST_MAGIC);
    Le8(b);
    Le8(c);
    Le8(d);
    Le8(e);
    Pieces44(Le(SST_MAGIC, 4), Le(a, 8), Le(b, 8), Le(c, 8), Le(d, 8), Le(e, 8));
  }

  /** Fields of four and five times eight bytes at their offsets. */
  lemma Pieces44(m: bytes, a: bytes, b: bytes, c: bytes, d: bytes, e: bytes)
    requires |m| == 4 && |a| == 8 && |b| == 8 && |c| == 8 && |d| == 8 && |e| == 8
    ensures var f := m + a + b + c + d + e;
            && |f| == 44 && f[0..4] == m && f[12..20] == b && f[20..28] == c && f[28..36] == d && f[36..44] == e
  {
  }

  lemma OpenAssembled(data: bytes, index: bytes, bloom: bytes, num: nat, smallest: bytes, largest: bytes)
    requires |Assemble(data, index, bloom)| < TWO64
    requires IndexOf(index).Ok? && Bloom.Decode(bloom).Ok?
    ensures Open(Assemble(data, index, bloom), num, smallest, largest)
         == Ok(SsTable(num, smallest, largest, |Assemble(data, index, bloom)|,
                       IndexOf(index).value, Bloom.Decode(bloom).value))
  {
    hide Footer, FromLe, IndexOf, Bloom.Decode;
    var file := Assemble(data, index, bloom);
    var footer := Footer(|data|, |data|, |index|, |data| + |index|, |bloom|);
    FooterFields(|data|, |data|, |index|, |data| + |index|, |bloom|);
    assert file[|file| - FOOTER_SIZE..] == footer;
    assert file[|data|..|data| + |index|] == index;
    assert file[|data| + |index|..|data| + |index| + |bloom|] == bloom;
  }

  lemma {:induction false} DataGrows(cs: seq<seq<Raw>>, i: nat)
    requires i <= |cs|
    ensures |Data(cs[..i])| <= |Data(cs)|
    decreases |cs| - i
  {
    if i < |cs| {
      DataGrows(cs, i + 1);
      assert cs[..i + 1][..i] == cs[..i];
    } else {
      assert cs[..i] == cs;
    }
  }

  lemma {:induction false} IndexAt(cs: seq<seq<Raw>>, i: nat)
    requires i < |cs|
    ensures Index(cs)[i] == IndexEntry(Separator(cs[i]), |Data(cs[..i])|, |BlockBytes(cs[i])|)
  {
    if i < |cs| - 1 {
      var front := cs[..|cs| - 1];
      IndexAt(front, i);
      assert front[..i] == cs[..i];
    }
  }

  lemma {:induction false} FlattenHas(cs: seq<seq<Raw>>, i: nat, e: Raw)
    requires i < |cs| && e in cs[i]
    ensures e in Flatten(cs)
  {
    if i < |cs| - 1 { FlattenHas(cs[..|cs| - 1], i, e); }
  }

  /** Opening a built file recovers the index of its blocks and its bloom filter. */
  lemma OpenBuilt(fmt: Format, rs: seq<Record>, num: nat, smallest: bytes, largest: bytes)
    requires FitsTable(fmt, rs)
    ensures Open(TableBytes(fmt, rs), num, smallest, largest) == Ok(TableOf(fmt, rs, num, smallest, largest))
  {
    var cs := ChunksOf(fmt, rs);
    ChunksKeepAll(fmt, rs);
    RawsFit(rs);
    forall e | e in Index(cs) ensures FitsIndexEntry(e) {
      var i :| 0 <= i < |cs| && Index(cs)[i] == e;
      IndexAt(cs, i);
      assert cs[i] in cs;
      FlattenHas(cs, i, cs[i][|cs[i]| - 1]);
      DataGrows(cs, i);
    }
    IndexRoundTrip(Index(cs));
    Bloom.RoundTrip(FilterOf(fmt, rs));
    OpenAssembled(Data(cs), IndexBytes(Index(cs)), Bloom.Encode(FilterOf(fmt, rs)), num, smallest, largest);
  }

  // ---------------------------------------------------------------- blocks are consecutive segments

  /** How many records stand before block `i`. */
  function Start(cs: seq<seq<Raw>>, i: nat): nat
    requires i <= |cs|
  {
    |Flatten(cs[..i])|
  }

  lemma RawsSlice(rs: seq<Record>, a: nat, b: nat)
    requires a <= b <= |rs|
    ensures |Raws(rs)| == |rs| && Raws(rs)[a..b] == Raws(rs[a..b])
  {
    hide *;
    RawsAt(rs);
    RawsAt(rs[a..b]);
  }

  lemma {:induction false} RawsAt(rs: seq<Record>)
    ensures |Raws(rs)| == |rs| && forall i :: 0 <= i < |rs| ==> Raws(rs)[i] == RawOf(rs[i])
  {
    if rs != [] {
      hide RawOf;
      RawsAt(rs[..|rs| - 1]);
    }
  }

  lemma {:induction false} FlattenAt(cs: seq<seq<Raw>>, i: nat)
    requires i < |cs|
    ensures Start(cs, i + 1) == Start(cs, i) + |cs[i]| <= |Flatten(cs)|
    ensures Flatten(cs)[Start(cs, i)..Start(cs, i + 1)] == cs[i]
  {
    var front := cs[..|cs| - 1];
    assert cs[..i + 1][..i] == cs[..i];
    if i < |cs| - 1 {
      FlattenAt(front, i);
      assert front[..i] == cs[..i] && front[..i + 1] == cs[..i + 1];
    } else {
      assert cs[..i + 1] == cs && cs[..i] == front;
    }
  }

  lemma {:induction false} DataAt(cs: seq<seq<Raw>>, i: nat)
    requires i < |cs|
    ensures At(Data(cs), |Data(cs[..i])|, BlockBytes(cs[i]))
  {
    var front := cs[..|cs| - 1];
    if i < |cs| - 1 {
      DataAt(front, i);
      assert front[..i] == cs[..i];
    } else {
      assert cs[..i] == front;
    }
  }

  function BlockCount(fmt: Format, rs: seq<Record>): nat {
    |ChunksOf(fmt, rs)|
  }

  /** The records before block `i` of a run's file. */
  function Before(fmt: Format, rs: seq<Record>, i: nat): (p: seq<Record>)
    requires i <= BlockCount(fmt, rs)
    ensures p <= rs
  {
    StartsInside(fmt, rs, i);
    rs[..Start(ChunksOf(fmt, rs), i)]
  }

  /** The records of block `i` of a run's file. */
  function Segment(fmt: Format, rs: seq<Record>, i: nat): (seg: seq<Record>)
    requires i < BlockCount(fmt, rs)
    ensures seg != []
    ensures Before(fmt, rs, i) + seg == Before(fmt, rs, i + 1)
  {
    var cs := ChunksOf(fmt, rs);
    StartsInside(fmt, rs, i);
    StartsInside(fmt, rs, i + 1);
    FlattenAt(cs, i);
    ChunksKeepAll(fmt, rs);
    assert cs[i] in cs;
    rs[Start(cs, i)..Start(cs, i + 1)]
  }

  lemma StartsInside(fmt: Format, rs: seq<Record>, i: nat)
    requires i <= BlockCount(fmt, rs)
    ensures Start(ChunksOf(fmt, rs), i) <= |rs|
  {
    var cs := ChunksOf(fmt, rs);
    ChunksKeepAll(fmt, rs);
    RawsSlice(rs, 0, 0);
    if i < |cs| { FlattenAt(cs, i); } else { assert cs[..i] == cs; }
  }

  /** The blocks cover the run from its first record to its last. */
  lemma BlocksCover(fmt: Format, rs: seq<Record>)
    ensures Before(fmt, rs, 0) == [] && Before(fmt, rs, BlockCount(fmt, rs)) == rs
  {
    var cs := ChunksOf(fmt, rs);
    ChunksKeepAll(fmt, rs);
    RawsSlice(rs, 0, 0);
    assert cs[..0] == [] && cs[..|cs|] == cs;
  }

  lemma SegmentRaws(fmt: Format, rs: seq<Record>, i: nat)
    requires i < BlockCount(fmt, rs)
    ensures Raws(Segment(fmt, rs, i)) == ChunksOf(fmt, rs)[i]
    ensures |Segment(fmt, rs, i)| == |ChunksOf(fmt, rs)[i]|
  {
    var cs := ChunksOf(fmt, rs);
    ChunksKeepAll(fmt, rs);
    FlattenAt(cs, i);
    StartsInside(fmt, rs, i);
    StartsInside(fmt, rs, i + 1);
    RawsSlice(rs, Start(cs, i), Start(cs, i + 1));
  }

  lemma AtAssembled(data: bytes, index: bytes, bloom: bytes, o: nat, piece: bytes)
    requires At(data, o, piece)
    ensures ReadAt(Assemble(data, index, bloom), o, |piece|) == Ok(piece)
  {
    var file := Assemble(data, index, bloom);
    assert file[..|data|] == data;
    assert file[o..o + |piece|] == data[o..o + |piece|];
  }

  lemma SeparatorOf(seg: seq<Record>)
    requires seg != []
    ensures SepUser(Separator(Raws(seg))) == seg[|seg| - 1].ik.userKey
  {
    var k := seg[|seg| - 1].ik;
    TagBytes(k);
    assert Raws(seg)[|Raws(seg)| - 1] == RawOf(seg[|seg| - 1]);
  }

  /** The index entry of block `i` leads to the block's bytes. */
  lemma BlockOfTable(fmt: Format, rs: seq<Record>, i: nat)
    requires i < BlockCount(fmt, rs)
    ensures var e := Index(ChunksOf(fmt, rs))[i];
            ReadAt(TableBytes(fmt, rs), e.off, e.len) == Ok(BlockBytes(ChunksOf(fmt, rs)[i]))
  {
    var cs := ChunksOf(fmt, rs);
    IndexAt(cs, i);
    DataAt(cs, i);
    AtAssembled(Data(cs), IndexBytes(Index(cs)), Bloom.Encode(FilterOf(fmt, rs)), |Data(cs[..i])|, BlockBytes(cs[i]));
  }

  /** Its separator is the user key of the block's last record. */
  lemma SeparatorOfBlock(fmt: Format, rs: seq<Record>, i: nat)
    requires i < BlockCount(fmt, rs)
    ensures var seg := Segment(fmt, rs, i);
            SepUser(Index(ChunksOf(fmt, rs))[i].sep) == seg[|seg| - 1].ik.userKey
  {
    IndexAt(ChunksOf(fmt, rs), i);
    SegmentRaws(fmt, rs, i);
    SeparatorOf(Segment(fmt, rs, i));
  }

  /** Decoding block `i` gives its segment of the run. */
  lemma BlockDecodes(fmt: Format, rs: seq<Record>, i: nat)
    requires FitsTable(fmt, rs) && i < BlockCount(fmt, rs)
    ensures BlockEntries(BlockBytes(ChunksOf(fmt, rs)[i])) == Segment(fmt, rs, i)
  {
    var seg := Segment(fmt, rs, i);
    SegmentRaws(fmt, rs, i);
    assert ChunksOf(fmt, rs)[i] in ChunksOf(fmt, rs);
    assert seg == Before(fmt, rs, i + 1)[|Before(fmt, rs, i)|..];
    assert forall r :: r in seg ==> r in rs;
    BlockRoundTrip(seg);
  }

  // ---------------------------------------------------------------- the run a file holds

  /** The records of the blocks an index lists, read straight from the file. */
  function BlocksOf(file: bytes, index: seq<IndexEntry>): seq<Record> {
    if index == [] then []
    else
      var e := index[|index| - 1];
      BlocksOf(file, index[..|index| - 1])
      + (match ReadAt(file, e.off, e.len) case Ok(b) => BlockEntries(b) case Corrupt => [])
  }

  /** The run in a table file, whatever its bytes are. */
  function RunIn(file: bytes): seq<Record> {
    match Open(file, 0, [], []) case Ok(t) => BlocksOf(file, t.index) case Corrupt => []
  }

  lemma {:induction false} FirstBlocks(fmt: Format, rs: seq<Record>, i: nat)
    requires FitsTable(fmt, rs) && i <= BlockCount(fmt, rs)
    ensures BlocksOf(TableBytes(fmt, rs), Index(ChunksOf(fmt, rs))[..i]) == Before(fmt, rs, i)
  {
    hide BlockBytes, BlockEntries, TableBytes, FitsTable, Before, Segment, Index, ReadAt;
    var index := Index(ChunksOf(fmt, rs));
    if i == 0 {
      BlocksCover(fmt, rs);
      assert index[..0] == [];
    } else {
      FirstBlocks(fmt, rs, i - 1);
      BlockOfTable(fmt, rs, i - 1);
      BlockDecodes(fmt, rs, i - 1);
      assert index[..i][..i - 1] == index[..i - 1];
      assert Before(fmt, rs, i - 1) + Segment(fmt, rs, i - 1) == Before(fmt, rs, i);
    }
  }

  /** A built file holds exactly the run it was built from. */
  lemma RunInBuilt(fmt: Format, rs: seq<Record>)
    requires FitsTable(fmt, rs)
    ensures RunIn(TableBytes(fmt, rs)) == rs
  {
    hide BlockEntries, TableBytes, FitsTable, BlocksOf, Open, Before;
    OpenBuilt(fmt, rs, 0, [], []);
    FirstBlocks(fmt, rs, BlockCount(fmt, rs));
    BlocksCover(fmt, rs);
    var index := Index(ChunksOf(fmt, rs));
    assert index[..|index|] == index;
  }

  // ---------------------------------------------------------------- the block cache

  /** Cached blocks by (file number, offset), evicted in no particular order. */
  class BlockCache {
    var blocks: map<(nat, nat), bytes>
    const capacity: nat

    constructor (capacity: nat)
      ensures blocks == map[] && this.capacity == capacity
    {
      this.capacity := capacity;
      blocks := map[];
    }

    ghost predicate Bounded()
      reads this
    {
      |blocks| <= Bloom.Max(capacity, 1)
    }

    method Get(num: nat, off: nat) returns (b: Option<bytes>)
      ensures b == if (num, off) in blocks then Some(blocks[(num, off)]) else None
    {
      b := if (num, off) in blocks then Some(blocks[(num, off)]) else None;
    }

    /** At capacity an arbitrary block is evicted first, even when the key is already present. */
    method Insert(num: nat, off: nat, block: bytes)
      requires Bounded()
      modifies this
      ensures Bounded()
      ensures (num, off) in blocks && blocks[(num, off)] == block
      ensures forall k :: k in blocks && k != (num, off) ==> k in old(blocks) && blocks[k] == old(blocks)[k]
      ensures |old(blocks)| < capacity ==> blocks == old(blocks)[(num, off) := block]
    {
      if |blocks| >= capacity && |blocks| > 0 {
        var k :| k in blocks;
        assert |blocks.Keys - {k}| == |blocks| - 1;
        assert (blocks - {k}).Keys == blocks.Keys - {k};
        blocks := blocks - {k};
      }
      assert blocks[(num, off) := block].Keys == blocks.Keys + {(num, off)};
      blocks := blocks[(num, off) := block];
    }
  }

  /** `block` is the block a run's file holds at offset `off`. */
  ghost predicate IsBlockAt(fmt: Format, rs: seq<Record>, off: nat, block: bytes) {
    var cs := ChunksOf(fmt, rs);
    exists i :: 0 <= i < |cs| && off == |Data(cs[..i])| && block == BlockBytes(cs[i])
  }

  /** Every cached block belongs to a file of `runs` and is what that file holds there. */
  ghost predicate Coherent(fmt: Format, blocks: map<(nat, nat), bytes>, runs: map<nat, seq<Record>>) {
    forall n, o :: (n, o) in blocks ==> n in runs && IsBlockAt(fmt, runs[n], o, blocks[(n, o)])
  }

  lemma {:induction false} OffsetsDiffer(cs: seq<seq<Raw>>, i: nat, j: nat)
    requires i < j <= |cs|
    ensures |Data(cs[..i])| < |Data(cs[..j])|
    decreases j
  {
    assert cs[..j][..j - 1] == cs[..j - 1];
    if i < j - 1 { OffsetsDiffer(cs, i, j - 1); }
  }

  lemma BlockAtOffset(fmt: Format, rs: seq<Record>, i: nat, block: bytes)
    requires i < |ChunksOf(fmt, rs)|
    requires IsBlockAt(fmt, rs, Index(ChunksOf(fmt, rs))[i].off, block)
    ensures block == BlockBytes(ChunksOf(fmt, rs)[i])
  {
    var cs := ChunksOf(fmt, rs);
    IndexAt(cs, i);
    var j :| 0 <= j < |cs| && Index(cs)[i].off == |Data(cs[..j])| && block == BlockBytes(cs[j]);
    if j < i { OffsetsDiffer(cs, j, i); }
    if i < j { OffsetsDiffer(cs, i, j); }
  }

  /** `t` is the open table of a run: its file, index, filter and bounds are the run's. */
  ghost predicate Holds(fmt: Format, t: SsTable, rs: seq<Record>) {
    && rs != [] && Sorted(rs) && FitsTable(fmt, rs)
    && t == TableOf(fmt, rs, t.num, rs[0].ik.userKey, rs[|rs| - 1].ik.userKey)
  }

  /** The runs of the files, wherever those still exist: a file that a compaction removed is
      no longer in the directory, and reading it is an error. */
  ghost predicate Stores(fmt: Format, disk: map<nat, bytes>, runs: map<nat, seq<Record>>) {
    forall n :: n in disk && n in runs ==> disk[n] == TableBytes(fmt, runs[n])
  }

  /** Read block `i` of a table through the cache. */
  method ReadBlock(t: SsTable, off: nat, len: nat, cache: BlockCache, disk: map<nat, bytes>,
                   ghost fmt: Format, ghost runs: map<nat, seq<Record>>, ghost i: nat)
    returns (b: Result<bytes>)
    requires cache.Bounded() && Coherent(fmt, cache.blocks, runs) && Stores(fmt, disk, runs)
    requires t.num in runs && Holds(fmt, t, runs[t.num])
    requires i < |t.index| && off == t.index[i].off && len == t.index[i].len
    modifies cache
    ensures cache.Bounded() && Coherent(fmt, cache.blocks, runs)
    ensures b.Ok? ==> b.value == BlockBytes(ChunksOf(fmt, runs[t.num])[i])
    ensures t.num in disk ==> b.Ok?
  {
    hide Data, Index, TableBytes, BlockBytes, ChunksOf, FitsTable, Sorted;
    var hit := cache.Get(t.num, off);
    if hit.Some? {
      BlockAtOffset(fmt, runs[t.num], i, hit.value);
      return Ok(hit.value);
    }
    if t.num !in disk { return Corrupt; }
    b := ReadAt(disk[t.num], off, len);
    BlockOfTable(fmt, runs[t.num], i);
    IndexAt(ChunksOf(fmt, runs[t.num]), i);
    cache.Insert(t.num, off, b.value);
  }

  // ---------------------------------------------------------------- scanning a table

  method CollectBlock(data: bytes) returns (out: seq<Record>)
    ensures out == BlockEntries(data)
  {
    hide DecodeAll, ParseRaws, BlockEntries;
    out := [];
    var it := new BlockEntryIter(data);
    ghost var left := it.Rest();
    while true
      invariant left == it.Rest() && out + left == BlockEntries(data)
      decreases |left|
    {
      var r := it.Next();
      if r.None? { break; }
      assert left == [left[0]] + left[1..];
      left := left[1..];
      out := out + [r.value];
    }
  }

  /** `iter_all` gives back exactly the run the table was built from. */
  method IterAll(t: SsTable, cache: BlockCache, disk: map<nat, bytes>,
                 ghost fmt: Format, ghost runs: map<nat, seq<Record>>)
    returns (out: Result<seq<Record>>)
    requires cache.Bounded() && Coherent(fmt, cache.blocks, runs) && Stores(fmt, disk, runs)
    requires t.num in runs && Holds(fmt, t, runs[t.num])
    modifies cache
    ensures cache.Bounded() && Coherent(fmt, cache.blocks, runs)
    ensures out.Ok? ==> out.value == runs[t.num]
    ensures t.num in disk ==> out.Ok?
  {
    hide Coherent, Stores, Before, Segment, BlockBytes, BlockEntries, FitsTable, Sorted, ChunksOf, Index;
    ghost var rs := runs[t.num];
    var got: seq<Record> := [];
    BlocksCover(fmt, rs);
    for i := 0 to |t.index|
      invariant cache.Bounded() && Coherent(fmt, cache.blocks, runs)
      invariant got == Before(fmt, rs, i)
    {
      var b := ReadBlock(t, t.index[i].off, t.index[i].len, cache, disk, fmt, runs, i);
      if b.Corrupt? { return Corrupt; }
      BlockDecodes(fmt, rs, i);
      var entries := CollectBlock(b.value);
      got := got + entries;
    }
    return Ok(got);
  }

  // ---------------------------------------------------------------- querying a table

  /** The first visible version met in a sorted run, when nothing before its segment is
      visible, is the newest in the whole run. */
  lemma FirstVisible(rs: seq<Record>, front: seq<Record>, seg: seq<Record>, k: bytes, maxSeq: nat, r: Record)
    requires Sorted(rs) && front + seg <= rs
    requires forall q :: q in front ==> !Visible(q, k, maxSeq)
    requires IsNewest(Contents(seg), k, maxSeq, r)
    ensures IsNewest(Contents(rs), k, maxSeq, r)
  {
    var i :| 0 <= i < |seg| && seg[i] == r;
    assert rs[|front| + i] == (front + seg)[|front| + i] == r;
    forall q | q in rs && Visible(q, k, maxSeq) ensures q.ik.seqno <= r.ik.seqno {
      var j :| 0 <= j < |rs| && rs[j] == q;
      if j < |front| + |seg| {
        assert q == (front + seg)[j];
        if j >= |front| { assert seg[j - |front|] in Contents(seg); }
      } else {
        SortedKeys(rs, |front| + i, j);
      }
    }
  }

  lemma AllBelow(rs: seq<Record>, front: seq<Record>, k: bytes, maxSeq: nat)
    requires Sorted(rs) && front <= rs
    requires front != [] ==> Lt(front[|front| - 1].ik.userKey, k)
    ensures forall q :: q in front ==> !Visible(q, k, maxSeq)
  {
    forall j | 0 <= j < |front| ensures front[j].ik.userKey != k {
      SortedKeys(rs, j, |front| - 1);
      LtAsym(front[|front| - 1].ik.userKey, k);
    }
  }

  /** Blocks whose separators are below `k` hold no version of `k`. */
  lemma SkippedBlocks(fmt: Format, rs: seq<Record>, i: nat, k: bytes, maxSeq: nat)
    requires Sorted(rs) && i <= BlockCount(fmt, rs)
    requires i > 0 ==> Lt(SepUser(Index(ChunksOf(fmt, rs))[i - 1].sep), k)
    ensures forall q :: q in Before(fmt, rs, i) ==> !Visible(q, k, maxSeq)
  {
    hide Before, Segment, Index, ChunksOf, Sorted, SepUser;
    if i > 0 {
      SeparatorOfBlock(fmt, rs, i - 1);
      LastOfSegment(Before(fmt, rs, i - 1), Segment(fmt, rs, i - 1), Before(fmt, rs, i));
    } else {
      BlocksCover(fmt, rs);
    }
    AllBelow(rs, Before(fmt, rs, i), k, maxSeq);
  }

  lemma LastOfSegment(front: seq<Record>, seg: seq<Record>, both: seq<Record>)
    requires seg != [] && front + seg == both
    ensures both != [] && both[|both| - 1] == seg[|seg| - 1]
  {
  }

  /** Read one block of a table and look `k` up in it. */
  method Lookup(t: SsTable, e: IndexEntry, cache: BlockCache, disk: map<nat, bytes>, k: bytes, maxSeq: nat,
                ghost fmt: Format, ghost runs: map<nat, seq<Record>>, ghost i: nat)
    returns (o: Result<Option<Record>>)
    requires cache.Bounded() && Coherent(fmt, cache.blocks, runs) && Stores(fmt, disk, runs)
    requires t.num in runs && Holds(fmt, t, runs[t.num])
    requires i < |t.index| && e == t.index[i]
    modifies cache
    ensures cache.Bounded() && Coherent(fmt, cache.blocks, runs)
    ensures o.Ok? ==> IsAnswer(Contents(Segment(fmt, runs[t.num], i)), k, maxSeq, o.value)
    ensures t.num in disk ==> o.Ok?
  {
    var b := ReadBlock(t, e.off, e.len, cache, disk, fmt, runs, i);
    if b.Corrupt? { return Corrupt; }
    BlockDecodes(fmt, runs[t.num], i);
    var r := GetInBlock(b.value, k, maxSeq);
    return Ok(r);
  }

  lemma {:induction false} UserKeysHave(rs: seq<Record>, r: Record)
    requires r in rs
    ensures r.ik.userKey in UserKeys(rs)
  {
    var front := rs[..|rs| - 1];
    if r != rs[|rs| - 1] { UserKeysHave(front, r); }
  }

  /** They only reject keys the table does not hold. */
  lemma RejectedKeys(fmt: Format, rs: seq<Record>, k: bytes, r: Record)
    requires Sorted(rs) && r in rs && r.ik.userKey == k
    ensures !Lt(k, rs[0].ik.userKey) && !Lt(rs[|rs| - 1].ik.userKey, k)
    ensures Bloom.WellFormed(FilterOf(fmt, rs)) && Bloom.Contains(fmt.hash, FilterOf(fmt, rs), k)
  {
    UserKeysHave(rs, r);
    Bloom.NoFalseNegatives(fmt.hash, UserKeys(rs), fmt.bitsPerKey, k);
    var i :| 0 <= i < |rs| && rs[i] == r;
    SortedKeys(rs, 0, i);
    SortedKeys(rs, i, |rs| - 1);
    LtOrder();
  }

  lemma {:induction false} UserKeysFrom(rs: seq<Record>, k: bytes)
    requires k in UserKeys(rs)
    ensures exists r :: r in rs && r.ik.userKey == k
  {
    var front, last := rs[..|rs| - 1], rs[|rs| - 1];
    assert rs == front + [last];
    if k in UserKeys(front) { UserKeysFrom(front, k); }
  }

  /** Every probe of the key falls where a probe of a key in the run falls. */
  ghost predicate ProbesMet(hash: Bloom.Hash, rs: seq<Record>, k: bytes, n: nat, nbits: nat)
    requires nbits > 0
  {
    forall i :: 0 <= i < n ==>
      exists r, j :: r in rs && 0 <= j < n && Bloom.Probe(hash, k, i, nbits) == Bloom.Probe(hash, r.ik.userKey, j, nbits)
  }

  /** The filter of a run passes exactly such keys. */
  lemma FilterExact(fmt: Format, rs: seq<Record>, k: bytes)
    ensures FilterOf(fmt, rs).nbits > 0
    ensures Bloom.Contains(fmt.hash, FilterOf(fmt, rs), k) <==>
            ProbesMet(fmt.hash, rs, k, FilterOf(fmt, rs).k, FilterOf(fmt, rs).nbits)
  {
    var f, keys := FilterOf(fmt, rs), UserKeys(rs);
    assert f == Bloom.Built(fmt.hash, keys, fmt.bitsPerKey);
    hide Bloom.Contains, Bloom.Probe, FilterOf, UserKeys, Bloom.Built;
    Bloom.PassesExactly(fmt.hash, keys, fmt.bitsPerKey, k);
    var n, nbits := f.k, f.nbits;
    forall i: nat | i < n
      ensures (exists q, j :: q in keys && 0 <= j < n
                 && Bloom.Probe(fmt.hash, k, i, nbits) == Bloom.Probe(fmt.hash, q, j, nbits)) <==>
              (exists r, j :: r in rs && 0 <= j < n
                 && Bloom.Probe(fmt.hash, k, i, nbits) == Bloom.Probe(fmt.hash, r.ik.userKey, j, nbits)) {
      if q, j :| q in keys && 0 <= j < n && Bloom.Probe(fmt.hash, k, i, nbits) == Bloom.Probe(fmt.hash, q, j, nbits) {
        UserKeysFrom(rs, q);
      }
      if r, j :| r in rs && 0 <= j < n && Bloom.Probe(fmt.hash, k, i, nbits) == Bloom.Probe(fmt.hash, r.ik.userKey, j, nbits) {
        UserKeysHave(rs, r);
      }
    }
  }

  lemma {:induction false} AllUserKeys(rs: seq<Record>)
    ensures |UserKeys(rs)| == |rs|
  {
    if rs != [] { AllUserKeys(rs[..|rs| - 1]); }
  }

  /** How large the filter of a run is, and how many probes it makes. */
  lemma FilterSizes(fmt: Format, rs: seq<Record>)
    ensures var f, b := FilterOf(fmt, rs), if fmt.bitsPerKey == 0 then 1 else fmt.bitsPerKey;
            && f.nbits == (if |rs| * b < 64 then 64 else |rs| * b)
            && 1 <= f.k <= 30 && (f.k > 1 ==> 100 * f.k <= 69 * b) && (f.k < 30 ==> 69 * b < 100 * (f.k + 1))
  {
    AllUserKeys(rs);
    Bloom.BuiltSizes(fmt.hash, UserKeys(rs), fmt.bitsPerKey);
    hide Bloom.Built, UserKeys;
  }

  /** `may_contain`: the range check and the bloom filter. A table that is rejected holds no version
      of the key, so leaving it out cannot change an answer. */
  method MayContain(hash: Bloom.Hash, t: SsTable, k: bytes, ghost fmt: Format, ghost rs: seq<Record>)
    returns (yes: bool)
    requires Holds(fmt, t, rs) && hash == fmt.hash
    ensures !yes ==> forall r :: r in rs ==> r.ik.userKey != k
    ensures Bloom.WellFormed(t.bloom)
    ensures yes <==> Leq(t.smallest, k) && Leq(k, t.largest) && Bloom.Contains(hash, t.bloom, k)
    ensures t.bloom.nbits > 0
    ensures yes <==> Leq(t.smallest, k) && Leq(k, t.largest) && ProbesMet(hash, rs, k, t.bloom.k, t.bloom.nbits)
  {
    FilterExact(fmt, rs, k);
    hide FitsTable, Sorted, ChunksOf, Index, TableBytes, FilterOf, Bloom.Contains, Bloom.WellFormed, Lt;
    RangeTest(k, t.smallest);
    RangeTest(t.largest, k);
    forall r | r in rs && r.ik.userKey == k
      ensures !Lt(k, t.smallest) && !Lt(t.largest, k) && Bloom.Contains(hash, t.bloom, k) {
      RejectedKeys(fmt, rs, k, r);
    }
    if Lt(k, t.smallest) || Lt(t.largest, k) { return false; }
    yes := Bloom.MayContain(hash, t.bloom, k);
  }

  lemma RangeTest(a: bytes, b: bytes)
    ensures !Lt(a, b) <==> Leq(b, a)
  {
    LtOrder();
  }

  /** The block the index points at, if it has a visible version. */
  method IndexedLookup(t: SsTable, cache: BlockCache, disk: map<nat, bytes>, k: bytes, maxSeq: nat,
                       ghost fmt: Format, ghost runs: map<nat, seq<Record>>)
    returns (o: Result<Option<Record>>)
    requires cache.Bounded() && Coherent(fmt, cache.blocks, runs) && Stores(fmt, disk, runs)
    requires t.num in runs && Holds(fmt, t, runs[t.num])
    modifies cache
    ensures cache.Bounded() && Coherent(fmt, cache.blocks, runs)
    ensures o.Ok? && o.value.Some? ==> IsNewest(Contents(runs[t.num]), k, maxSeq, o.value.value)
    ensures t.num in disk ==> o.Ok?
  {
    var e, pos := FindBlock(t.index, k);
    if e.None? { return Ok(None); }
    SkippedBlocks(fmt, runs[t.num], pos, k, maxSeq);
    o := Lookup(t, e.value, cache, disk, k, maxSeq, fmt, runs, pos);
    if o.Ok? && o.value.Some? {
      FirstVisible(runs[t.num], Before(fmt, runs[t.num], pos), Segment(fmt, runs[t.num], pos), k, maxSeq,
          o.value.value);
    }
  }

  /** `SsTable::get`: range check, bloom filter, the indexed block, then every block in order.
      It answers exactly as a scan of the run, even where versions of `k` span blocks. */
  method Get(t: SsTable, cache: BlockCache, disk: map<nat, bytes>, k: bytes, maxSeq: nat, hash: Bloom.Hash,
             ghost fmt: Format, ghost runs: map<nat, seq<Record>>)
    returns (o: Result<Option<Record>>)
    requires cache.Bounded() && Coherent(fmt, cache.blocks, runs) && Stores(fmt, disk, runs)
    requires t.num in runs && Holds(fmt, t, runs[t.num]) && hash == fmt.hash
    modifies cache
    ensures cache.Bounded() && Coherent(fmt, cache.blocks, runs)
    ensures o.Ok? ==> IsAnswer(Contents(runs[t.num]), k, maxSeq, o.value)
    ensures t.num in disk ==> o.Ok?
  {
    hide Coherent, Stores, Before, Segment, FitsTable, Sorted, ChunksOf, Index, FilterOf, Bloom.Contains,
        Bloom.WellFormed;
    ghost var rs := runs[t.num];
    var may := MayContain(hash, t, k, fmt, rs);
    if !may {
      assert forall r :: r in rs ==> !Visible(r, k, maxSeq);
      return Ok(None);
    }
    o := IndexedLookup(t, cache, disk, k, maxSeq, fmt, runs);
    if o.Corrupt? || o.value.Some? { return; }
    BlocksCover(fmt, rs);
    for i := 0 to |t.index|
      invariant cache.Bounded() && Coherent(fmt, cache.blocks, runs)
      invariant forall q :: q in Before(fmt, rs, i) ==> !Visible(q, k, maxSeq)
    {
      ghost var front, seg := Before(fmt, rs, i), Segment(fmt, rs, i);
      o := Lookup(t, t.index[i], cache, disk, k, maxSeq, fmt, runs, i);
      if o.Corrupt? { return; }
      if o.value.Some? {
        FirstVisible(rs, front, seg, k, maxSeq, o.value.value);
        return;
      }
      forall q | q in front + seg ensures !Visible(q, k, maxSeq) {
        if q !in front { assert q in Contents(seg); }
      }
    }
    return Ok(None);
  }
}
