/** Table files: how a sorted run becomes bytes (src/sstable/builder.rs). */
module Builder {
  import opened ByteStrings
  import opened Keys
  import opened Records
  import opened Blocks
  import Bloom

  const SST_MAGIC := 0x5353_544A
  const FOOTER_SIZE := 44

  // ---------------------------------------------------------------- cutting a run into blocks

  /** The blocks closed and the block still open after adding entries one by one. */
  datatype Cuts = Cuts(closed: seq<seq<Raw>>, open: seq<Raw>)

  /** A block is closed as soon as its estimated size reaches `blockSize`. */
  function CutOne(c: Cuts, e: Raw, blockSize: nat): Cuts {
    if EstimatedSize(c.open + [e]) >= blockSize then Cuts(c.closed + [c.open + [e]], [])
    else Cuts(c.closed, c.open + [e])
  }

  function Cut(rs: seq<Record>, blockSize: nat): Cuts {
    if rs == [] then Cuts([], []) else CutOne(Cut(rs[..|rs| - 1], blockSize), RawOf(rs[|rs| - 1]), blockSize)
  }

  /** The closed blocks, and the open one if it holds anything, as `finish` leaves them. */
  function Closed(c: Cuts): seq<seq<Raw>> {
    if c.open == [] then c.closed else c.closed + [c.open]
  }

  function Flatten(cs: seq<seq<Raw>>): seq<Raw> {
    if cs == [] then [] else Flatten(cs[..|cs| - 1]) + cs[|cs| - 1]
  }

  ghost predicate NoEmptyBlock(cs: seq<seq<Raw>>) {
    forall c :: c in cs ==> c != []
  }

  lemma FlattenStep(cs: seq<seq<Raw>>, c: seq<Raw>)
    ensures Flatten(cs + [c]) == Flatten(cs) + c
  {
    assert (cs + [c])[..|cs|] == cs;
  }

  lemma {:induction false} CutKeepsAll(rs: seq<Record>, blockSize: nat)
    ensures var c := Cut(rs, blockSize); Flatten(c.closed) + c.open == Raws(rs) && NoEmptyBlock(c.closed)
  {
    if rs != [] {
      var front, e := rs[..|rs| - 1], RawOf(rs[|rs| - 1]);
      var c := Cut(front, blockSize);
      CutKeepsAll(front, blockSize);
      FlattenStep(c.closed, c.open + [e]);
      assert Flatten(c.closed) + (c.open + [e]) == Raws(front) + [e];
    }
  }

  /** A block is closed by the very entry that takes it to the block size. */
  ghost predicate CutHere(c: seq<Raw>, blockSize: nat) {
    c != [] && EstimatedSize(c) >= blockSize && (|c| > 1 ==> EstimatedSize(c[..|c| - 1]) < blockSize)
  }

  lemma {:induction false} CutsBySize(rs: seq<Record>, blockSize: nat)
    ensures var c := Cut(rs, blockSize);
            && (forall i :: 0 <= i < |c.closed| ==> CutHere(c.closed[i], blockSize))
            && (c.open != [] ==> EstimatedSize(c.open) < blockSize)
  {
    if rs != [] {
      hide RawOf;
      var c, e := Cut(rs[..|rs| - 1], blockSize), RawOf(rs[|rs| - 1]);
      CutsBySize(rs[..|rs| - 1], blockSize);
      assert (c.open + [e])[..|c.open|] == c.open;
    }
  }

  // ---------------------------------------------------------------- file layout

  function Data(cs: seq<seq<Raw>>): bytes {
    if cs == [] then [] else Data(cs[..|cs| - 1]) + BlockBytes(cs[|cs| - 1])
  }

  /** A block's separator: its last encoded internal key. */
  function Separator(c: seq<Raw>): bytes {
    if c == [] then [] else c[|c| - 1].key
  }

  /** One index entry per block: its separator, offset and length. */
  function Index(cs: seq<seq<Raw>>): (es: seq<IndexEntry>)
    ensures |es| == |cs|
  {
    if cs == [] then []
    else
      var front, last := cs[..|cs| - 1], cs[|cs| - 1];
      Index(front) + [IndexEntry(Separator(last), |Data(front)|, |BlockBytes(last)|)]
  }

  function UserKeys(rs: seq<Record>): seq<bytes> {
    if rs == [] then [] else UserKeys(rs[..|rs| - 1]) + [rs[|rs| - 1].ik.userKey]
  }

  function Footer(dataEnd: nat, indexOff: nat, indexLen: nat, bloomOff: nat, bloomLen: nat): (b: bytes)
    ensures |b| == FOOTER_SIZE
  {
    Le(SST_MAGIC, 4) + Le(dataEnd, 8) + Le(indexOff, 8) + Le(indexLen, 8) + Le(bloomOff, 8) + Le(bloomLen, 8)
  }

  /** Data blocks, index, bloom filter, and a footer that says where each begins. */
  function Assemble(data: bytes, index: bytes, bloom: bytes): bytes {
    data + index + bloom + Footer(|data|, |data|, |index|, |data| + |index|, |bloom|)
  }

  /** The options a table file depends on. */
  datatype Format = Format(hash: Bloom.Hash, blockSize: nat, bitsPerKey: nat)

  function FilterOf(fmt: Format, rs: seq<Record>): (f: Bloom.BloomFilter)
    ensures Bloom.WellFormed(f)
  {
    Bloom.Built(fmt.hash, UserKeys(rs), fmt.bitsPerKey)
  }

  function ChunksOf(fmt: Format, rs: seq<Record>): seq<seq<Raw>> {
    Closed(Cut(rs, fmt.blockSize))
  }

  /** Cutting into blocks neither loses, repeats nor reorders an entry. */
  lemma ChunksKeepAll(fmt: Format, rs: seq<Record>)
    ensures Flatten(ChunksOf(fmt, rs)) == Raws(rs) && NoEmptyBlock(ChunksOf(fmt, rs))
  {
    CutKeepsAll(rs, fmt.blockSize);
    var c := Cut(rs, fmt.blockSize);
    FlattenStep(c.closed, c.open);
  }

  /** Each block but the last is filled to the block size, and none is but by its last entry. */
  lemma ChunksBySize(fmt: Format, rs: seq<Record>, i: nat)
    requires i < |ChunksOf(fmt, rs)|
    ensures var cs := ChunksOf(fmt, rs);
            && cs[i] != [] && (i < |cs| - 1 ==> |EntriesBytes(cs[i])| >= fmt.blockSize)
            && (|cs[i]| > 1 ==> |EntriesBytes(cs[i][..|cs[i]| - 1])| < fmt.blockSize)
  {
    var c := ChunksOf(fmt, rs)[i];
    CutsBySize(rs, fmt.blockSize);
    SizeIs(c);
    if c != [] { SizeIs(c[..|c| - 1]); }
    CutKeepsAll(rs, fmt.blockSize);
    var cut := Cut(rs, fmt.blockSize);
    hide Cut, EstimatedSize, EntriesBytes;
    if i < |cut.closed| { assert cut.closed[i] == c && CutHere(c, fmt.blockSize); }
  }

  lemma {:induction false} SizeIs(es: seq<Raw>)
    ensures |EntriesBytes(es)| == EstimatedSize(es)
    ensures es != [] ==> EstimatedSize(es[..|es| - 1]) <= EstimatedSize(es)
  {
    if es != [] {
      var front, e := es[..|es| - 1], es[|es| - 1];
      SizeIs(front);
      EntriesSplit(front, [e]);
      assert front + [e] == es && [e][1..] == [];
    }
  }

  lemma {:induction false} EntriesSplit(a: seq<Raw>, b: seq<Raw>)
    ensures |EntriesBytes(a + b)| == |EntriesBytes(a)| + |EntriesBytes(b)|
  {
    if a == [] {
      assert a + b == b;
    } else {
      hide EntryBytes;
      EntriesSplit(a[1..], b);
      assert (a + b)[1..] == a[1..] + b;
    }
  }

  /** The whole table file for a run of records. */
  function TableBytes(fmt: Format, rs: seq<Record>): bytes {
    var cs := ChunksOf(fmt, rs);
    Assemble(Data(cs), IndexBytes(Index(cs)), Bloom.Encode(FilterOf(fmt, rs)))
  }

  datatype Meta = Meta(smallest: InternalKey, largest: InternalKey, fileSize: nat)

  // ---------------------------------------------------------------- the builder

  /** The builder's fields as functions of the records added. */
  ghost predicate Accounts(fmt: Format, added: seq<Record>, cuts: Cuts, userKeys: seq<bytes>,
                           smallest: Option<InternalKey>, largest: Option<InternalKey>) {
    && cuts == Cut(added, fmt.blockSize)
    && userKeys == UserKeys(added)
    && smallest == (if added == [] then None else Some(added[0].ik))
    && largest == (if added == [] then None else Some(added[|added| - 1].ik))
  }

  lemma AccountsStep(fmt: Format, added: seq<Record>, cuts: Cuts, userKeys: seq<bytes>,
                     smallest: Option<InternalKey>, largest: Option<InternalKey>, r: Record)
    requires Accounts(fmt, added, cuts, userKeys, smallest, largest)
    ensures Accounts(fmt, added + [r], CutOne(cuts, RawOf(r), fmt.blockSize), userKeys + [r.ik.userKey],
                     if smallest.None? then Some(r.ik) else smallest, Some(r.ik))
  {
    assert (added + [r])[..|added|] == added;
  }

  class SsTableBuilder {
    const fmt: Format
    var data: bytes
    var block: BlockBuilder
    var index: seq<IndexEntry>
    var lastKey: bytes
    var userKeys: seq<bytes>
    var smallest: Option<InternalKey>
    var largest: Option<InternalKey>

    /** The records added so far, and the blocks closed so far. */
    ghost var added: seq<Record>
    ghost var closed: seq<seq<Raw>>

    /** The bytes and index cover the closed blocks; the block builder holds the open one. */
    ghost predicate Layout()
      reads this, block
    {
      && data == Data(closed)
      && index == Index(closed)
      && block.Valid()
      && (block.entries != [] ==> lastKey == Separator(block.entries))
    }

    ghost predicate Valid()
      reads this, block
    {
      Layout() && Accounts(fmt, added, Cuts(closed, block.entries), userKeys, smallest, largest)
    }

    constructor (fmt: Format)
      ensures Valid() && added == [] && fresh(block) && this.fmt == fmt
    {
      this.fmt := fmt;
      data, index, lastKey, userKeys := [], [], [], [];
      smallest, largest := None, None;
      block := new BlockBuilder();
      added, closed := [], [];
    }

    method Add(r: Record)
      requires Valid()
      modifies this, block
      ensures Valid() && added == old(added) + [r]
      ensures block == old(block) || fresh(block)
    {
      AccountsStep(fmt, added, Cuts(closed, block.entries), userKeys, smallest, largest, r);
      added := added + [r];
      AddEntry(r.ik, Encode(r.ik), r.value);
    }

    method AddEntry(key: InternalKey, enc: bytes, value: bytes)
      requires Layout()
      modifies this`data, this`index, this`block, this`lastKey, this`closed, block
      modifies this`userKeys, this`smallest, this`largest
      ensures Layout()
      ensures Cuts(closed, block.entries)
          == CutOne(Cuts(old(closed), old(block.entries)), Raw(enc, value), fmt.blockSize)
      ensures userKeys == old(userKeys) + [key.userKey] && largest == Some(key)
      ensures smallest == if old(smallest).None? then Some(key) else old(smallest)
      ensures block == old(block) || fresh(block)
    {
      if smallest.None? { smallest := Some(key); }
      largest := Some(key);
      userKeys := userKeys + [key.userKey];
      block.Add(enc, value);
      lastKey := enc;
      if block.size >= fmt.blockSize {
        FlushBlock();
      }
    }

    method FlushBlock()
      requires Layout()
      modifies this`data, this`index, this`block, this`lastKey, this`closed
      ensures Layout() && block.entries == []
      ensures closed == if old(block.entries) == [] then old(closed) else old(closed) + [old(block.entries)]
      ensures block == old(block) || fresh(block)
    {
      hide BlockBytes, EstimatedSize;
      if block.entries == [] { return; }
      var raw := block.Finish();
      assert (closed + [block.entries])[..|closed|] == closed;
      var offset := |data|;
      data := data + raw;
      index := index + [IndexEntry(lastKey, offset, |raw|)];
      lastKey := [];
      closed := closed + [block.entries];
      block := new BlockBuilder();
    }

    /** Returns the bytes written to the table file and its metadata. */
    method Finish() returns (file: bytes, meta: Meta)
      requires Valid() && added != []
      modifies this, block
      ensures added == old(added)
      ensures file == TableBytes(fmt, added)
      ensures meta == Meta(added[0].ik, added[|added| - 1].ik, |file|)
    {
      hide Cut, UserKeys, Data, Index, IndexBytes, Assemble, EstimatedSize;
      FlushBlock();
      assert closed == ChunksOf(fmt, added);
      var bloom := Bloom.Build(fmt.hash, userKeys, fmt.bitsPerKey);
      var bloomBytes := Bloom.Encode(bloom);
      var indexBytes := EncodeIndex(index);
      file := Assemble(data, indexBytes, bloomBytes);
      meta := Meta(smallest.value, largest.value, |file|);
    }
  }
}
