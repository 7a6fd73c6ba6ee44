/** Data blocks and the block index (src/sstable/block.rs). */
module Blocks {
  import opened ByteStrings
  import opened Keys
  import opened Records

  // ---------------------------------------------------------------- data blocks

  /** A block entry before decoding: an encoded internal key and a value. */
  datatype Raw = Raw(key: bytes, value: bytes)

  function RawOf(r: Record): Raw {
    Raw(Encode(r.ik), r.value)
  }

  function Raws(rs: seq<Record>): seq<Raw> {
    if rs == [] then [] else Raws(rs[..|rs| - 1]) + [RawOf(rs[|rs| - 1])]
  }

  function EntryBytes(e: Raw): bytes {
    Le(|e.key|, 4) + e.key + (Le(|e.value|, 4) + e.value)
  }

  function EntriesBytes(es: seq<Raw>): bytes {
    if es == [] then [] else EntryBytes(es[0]) + EntriesBytes(es[1..])
  }

  /** `[num:u32][entries...]`, entry `[ik_len:u32][ik][v_len:u32][v]`. */
  function BlockBytes(es: seq<Raw>): bytes {
    Le(|es|, 4) + EntriesBytes(es)
  }

  /** `BlockBuilder::add`'s running size. */
  function EstimatedSize(es: seq<Raw>): nat {
    if es == [] then 0
    else EstimatedSize(es[..|es| - 1]) + |es[|es| - 1].key| + |es[|es| - 1].value| + 8
  }

  class BlockBuilder {
    var entries: seq<Raw>
    var size: nat

    ghost predicate Valid()
      reads this
    {
      size == EstimatedSize(entries)
    }

    constructor ()
      ensures Valid() && entries == []
    {
      entries, size := [], 0;
    }

    method Add(ikey: bytes, value: bytes)
      requires Valid()
      modifies this
      ensures Valid() && entries == old(entries) + [Raw(ikey, value)]
    {
      size := size + |ikey| + |value| + 8;
      assert (entries + [Raw(ikey, value)])[..|entries|] == entries;
      entries := entries + [Raw(ikey, value)];
    }

    method Finish() returns (data: bytes)
      ensures data == BlockBytes(entries)
    {
      data := Le(|entries|, 4);
      for i := 0 to |entries|
        invariant data + EntriesBytes(entries[i..]) == BlockBytes(entries)
      {
        var Raw(ik, v) := entries[i];
        assert entries[i..][1..] == entries[i + 1..];
        Appended(data, Le(|ik|, 4), ik, Le(|v|, 4), v, EntriesBytes(entries[i + 1..]));
        data := data + Le(|ik|, 4);
        data := data + ik;
        data := data + Le(|v|, 4);
        data := data + v;
      }
      assert entries[|entries|..] == [];
    }
  }

  /** The entry at `offset` and the offset after it, or None where the data runs out. */
  function ParseRaw(data: bytes, offset: nat): Option<(Raw, nat)> {
    if offset + 4 > |data| then None
    else
      var n := FromLe(data[offset..offset + 4]);
      var o := offset + 4;
      if o + n + 4 > |data| then None
      else
        var m := FromLe(data[o + n..o + n + 4]);
        var p := o + n + 4;
        if p + m > |data| then None else Some((Raw(data[o..o + n], data[p..p + m]), p + m))
  }

  function ParseRaws(data: bytes, offset: nat, remaining: nat): seq<Raw>
    decreases remaining
  {
    if remaining == 0 then []
    else
      match ParseRaw(data, offset)
      case None => []
      case Some((e, next)) => [e] + ParseRaws(data, next, remaining - 1)
  }

  /** Decode the keys, up to the first that does not decode. */
  function DecodeAll(es: seq<Raw>): seq<Record> {
    if es == [] then []
    else
      match Decode(es[0].key)
      case Corrupt => []
      case Ok(ik) => [Record(ik, es[0].value)] + DecodeAll(es[1..])
  }

  /** Everything `iter_entries` yields from a raw block. */
  function BlockEntries(data: bytes): seq<Record> {
    DecodeAll(ParseRaws(data, 4, if |data| >= 4 then FromLe(data[..4]) else 0))
  }

  /** A block is read entry by entry: up to the announced number, and no further than the first entry
      that is not all there or whose key is none. */
  lemma BlockReads(data: bytes, o: nat, n: nat)
    ensures DecodeAll(ParseRaws(data, o, 0)) == [] && (ParseRaw(data, o).None? ==> DecodeAll(ParseRaws(data, o, n)) == [])
    ensures ParseRaw(data, o).Some? ==>
              var (e, next) := ParseRaw(data, o).value;
              DecodeAll(ParseRaws(data, o, n + 1)) ==
              match Decode(e.key)
              case Corrupt => []
              case Ok(ik) => [Record(ik, e.value)] + DecodeAll(ParseRaws(data, next, n))
  {
    hide ParseRaw, Decode;
    if ParseRaw(data, o).Some? {
      var (e, next) := ParseRaw(data, o).value;
      assert ([e] + ParseRaws(data, next, n))[1..] == ParseRaws(data, next, n);
    }
  }

  class BlockEntryIter {
    const data: bytes
    var offset: nat
    var remaining: nat

    ghost function Rest(): seq<Record>
      reads this
    {
      DecodeAll(ParseRaws(data, offset, remaining))
    }

    constructor (data: bytes)
      ensures Rest() == BlockEntries(data) && this.data == data
    {
      this.data := data;
      offset := 4;
      remaining := if |data| >= 4 then FromLe(data[..4]) else 0;
    }

    /** On failure the cursor may have moved; every caller stops at the first None. */
    method Next() returns (r: Option<Record>)
      modifies this
      ensures old(Rest()) == [] ==> r == None
      ensures old(Rest()) != [] ==> r == Some(old(Rest())[0]) && Rest() == old(Rest())[1..]
    {
      hide FromLe, Decode, DecodeAll, ParseRaws;
      BlockReads(data, offset, remaining);
      if remaining == 0 { return None; }
      BlockReads(data, offset, remaining - 1);
      if offset + 4 > |data| { return None; }
      var ikLen := FromLe(data[offset..offset + 4]);
      offset := offset + 4;
      if offset + ikLen + 4 > |data| { return None; }
      var ik := Decode(data[offset..offset + ikLen]);
      if ik.Corrupt? { return None; }
      offset := offset + ikLen;
      var vLen := FromLe(data[offset..offset + 4]);
      offset := offset + 4;
      if offset + vLen > |data| { return None; }
      var v := data[offset..offset + vLen];
      offset := offset + vLen;
      remaining := remaining - 1;
      return Some(Record(ik.value, v));
    }
  }

  // ---------------------------------------------------------------- lookup in a block

  /** `Block::get`: the visible entry of greatest sequence number. */
  method GetInBlock(data: bytes, k: bytes, maxSeq: nat) returns (best: Option<Record>)
    ensures best.None? ==> forall r :: r in BlockEntries(data) ==> !Visible(r, k, maxSeq)
    ensures best.Some? ==> IsNewest(Contents(BlockEntries(data)), k, maxSeq, best.value)
  {
    best := None;
    var it := new BlockEntryIter(data);
    ghost var seen: seq<Record> := [];
    ghost var left := it.Rest();
    while true
      invariant left == it.Rest() && seen + left == BlockEntries(data)
      invariant best.None? ==> forall r :: r in seen ==> !Visible(r, k, maxSeq)
      invariant best.Some? ==> IsNewest(Contents(seen), k, maxSeq, best.value)
      decreases |left|
    {
      var r := it.Next();
      if r.None? { break; }
      if r.value.ik.userKey == k && r.value.ik.seqno <= maxSeq {
        if best.None? || r.value.ik.seqno > best.value.ik.seqno { best := r; }
      }
      seen := seen + [left[0]];
      left := left[1..];
    }
    assert seen == BlockEntries(data);
  }

  // ---------------------------------------------------------------- the block index

  datatype IndexEntry = IndexEntry(sep: bytes, off: nat, len: nat)

  function IndexEntryBytes(e: IndexEntry): bytes {
    Le(|e.sep|, 4) + e.sep + (Le(e.off, 8) + Le(e.len, 4))
  }

  function IndexEntriesBytes(es: seq<IndexEntry>): bytes {
    if es == [] then [] else IndexEntryBytes(es[0]) + IndexEntriesBytes(es[1..])
  }

  function IndexBytes(es: seq<IndexEntry>): bytes {
    Le(|es|, 4) + IndexEntriesBytes(es)
  }

  method EncodeIndex(es: seq<IndexEntry>) returns (data: bytes)
    ensures data == IndexBytes(es)
  {
    data := Le(|es|, 4);
    for i := 0 to |es|
      invariant data + IndexEntriesBytes(es[i..]) == IndexBytes(es)
    {
      assert es[i..][1..] == es[i + 1..];
      Appended(data, Le(|es[i].sep|, 4), es[i].sep, Le(es[i].off, 8), Le(es[i].len, 4), IndexEntriesBytes(es[i + 1..]));
      data := data + Le(|es[i].sep|, 4);
      data := data + es[i].sep;
      data := data + Le(es[i].off, 8);
      data := data + Le(es[i].len, 4);
    }
    assert es[|es|..] == [];
  }

  function ParseIndexEntry(data: bytes, o: nat): Result<(IndexEntry, nat)> {
    if o + 4 > |data| then Corrupt
    else
      var klen := FromLe(data[o..o + 4]);
      var p := o + 4;
      if p + klen + 8 + 4 > |data| then Corrupt
      else
        Ok((IndexEntry(data[p..p + klen],
                       FromLe(data[p + klen..p + klen + 8]),
                       FromLe(data[p + klen + 8..p + klen + 12])),
            p + klen + 12))
  }

  function ParseIndex(data: bytes, o: nat, n: nat): Result<seq<IndexEntry>>
    decreases n
  {
    if n == 0 then Ok([])
    else
      match ParseIndexEntry(data, o)
      case Corrupt => Corrupt
      case Ok((e, next)) =>
        match ParseIndex(data, next, n - 1)
        case Corrupt => Corrupt
        case Ok(es) => Ok([e] + es)
  }

  function IndexOf(data: bytes): Result<seq<IndexEntry>> {
    if |data| < 4 then Corrupt else ParseIndex(data, 4, FromLe(data[..4]))
  }

  method DecodeIndex(data: bytes) returns (r: Result<seq<IndexEntry>>)
    ensures r == IndexOf(data)
  {
    if |data| < 4 { return Corrupt; }
    var n := FromLe(data[..4]);
    var o := 4;
    var entries: seq<IndexEntry> := [];
    assert forall es: seq<IndexEntry> :: entries + es == es;
    for i := 0 to n
      invariant IndexOf(data) == match ParseIndex(data, o, n - i)
                                 case Corrupt => Corrupt
                                 case Ok(es) => Ok(entries + es)
    {
      if o + 4 > |data| { return Corrupt; }
      var klen := FromLe(data[o..o + 4]);
      o := o + 4;
      if o + klen + 8 + 4 > |data| { return Corrupt; }
      var k := data[o..o + klen];
      o := o + klen;
      var off := FromLe(data[o..o + 8]);
      o := o + 8;
      var len := FromLe(data[o..o + 4]);
      o := o + 4;
      ghost var before := entries;
      entries := entries + [IndexEntry(k, off, len)];
      assert forall es :: before + ([IndexEntry(k, off, len)] + es) == entries + es;
    }
    assert entries + [] == entries;
    return Ok(entries);
  }

  function SepUser(sep: bytes): bytes {
    if |sep| >= 8 then sep[..|sep| - 8] else sep
  }

  /** `find_block`: the first block whose separator's user key is not below `k`, else the last
      block. `pos` is its position: every earlier block ends below `k`. */
  method FindBlock(es: seq<IndexEntry>, k: bytes) returns (best: Option<IndexEntry>, ghost pos: nat)
    ensures best.None? <==> es == []
    ensures best.Some? ==> pos < |es| && best.value == es[pos]
    ensures forall j :: 0 <= j < pos && j < |es| ==> Lt(SepUser(es[j].sep), k)
    ensures best.Some? && pos < |es| - 1 ==> Leq(k, SepUser(es[pos].sep))
  {
    best, pos := None, 0;
    for i := 0 to |es|
      invariant i == 0 ==> best == None
      invariant i > 0 ==> best == Some(es[i - 1])
      invariant pos == if i == 0 then 0 else i - 1
      invariant forall j :: 0 <= j < i ==> Lt(SepUser(es[j].sep), k)
    {
      best, pos := Some(es[i]), i;
      LtTotal(k, SepUser(es[i].sep));
      if Leq(k, SepUser(es[i].sep)) { break; }
    }
  }

  // ---------------------------------------------------------------- round trips

  /** Lengths fit the u32 fields of the format and the sequence number the 56 bits left to it. */
  predicate FitsEntry(r: Record) {
    |r.ik.userKey| + 8 < TWO32 && |r.value| < TWO32 && r.ik.seqno < TWO56
  }

  lemma ParseRawAt(data: bytes, o: nat, e: Raw)
    requires |e.key| < TWO32 && |e.value| < TWO32 && At(data, o, EntryBytes(e))
    ensures ParseRaw(data, o) == Some((e, o + |EntryBytes(e)|))
  {
    AtFields(data, o, Le(|e.key|, 4), e.key, Le(|e.value|, 4), e.value);
    Le4(|e.key|);
    Le4(|e.value|);
  }

  lemma {:induction false} ParseRawsAt(data: bytes, o: nat, es: seq<Raw>)
    requires forall e :: e in es ==> |e.key| < TWO32 && |e.value| < TWO32
    requires At(data, o, EntriesBytes(es))
    ensures ParseRaws(data, o, |es|) == es
    decreases es
  {
    hide *;
    if es != [] {
      EntriesStep(es);
      AtSplit(data, o, EntryBytes(es[0]), EntriesBytes(es[1..]));
      ParseRawAt(data, o, es[0]);
      ParseRawsAt(data, o + |EntryBytes(es[0])|, es[1..]);
      ParseStep(data, o, |es|);
      assert [es[0]] + es[1..] == es;
    } else {
      NoneToParse(data, o);
    }
  }

  lemma EntriesStep(es: seq<Raw>)
    requires es != []
    ensures EntriesBytes(es) == EntryBytes(es[0]) + EntriesBytes(es[1..])
  {
    hide EntryBytes;
  }

  lemma NoneToParse(data: bytes, o: nat)
    ensures ParseRaws(data, o, 0) == []
  {
  }

  lemma ParseStep(data: bytes, o: nat, n: nat)
    requires n > 0
    ensures ParseRaws(data, o, n) == match ParseRaw(data, o)
                                     case None => []
                                     case Some((e, next)) => [e] + ParseRaws(data, next, n - 1)
  {
    hide ParseRaw;
  }

  lemma {:induction false} RawsFit(rs: seq<Record>)
    requires forall r :: r in rs ==> FitsEntry(r)
    ensures |Raws(rs)| == |rs|
    ensures forall e :: e in Raws(rs) ==> |e.key| < TWO32 && |e.value| < TWO32
  {
    if rs != [] {
      var front, r := rs[..|rs| - 1], rs[|rs| - 1];
      RawsFit(front);
      assert FitsEntry(r) && |RawOf(r).key| == |r.ik.userKey| + 8;
      assert Raws(rs) == Raws(front) + [RawOf(r)];
    }
  }

  lemma {:induction false} DecodeSplit(a: seq<Raw>, r: Record)
    requires r.ik.seqno < TWO56 && |DecodeAll(a)| == |a|
    ensures DecodeAll(a + [RawOf(r)]) == DecodeAll(a) + [r]
  {
    var b := a + [RawOf(r)];
    if a == [] {
      EncodeRoundTrip(r.ik);
      assert b[1..] == [];
    } else {
      assert b[1..] == a[1..] + [RawOf(r)];
      DecodeSplit(a[1..], r);
    }
  }

  lemma {:induction false} DecodeRaws(rs: seq<Record>)
    requires forall r :: r in rs ==> r.ik.seqno < TWO56
    ensures DecodeAll(Raws(rs)) == rs && |Raws(rs)| == |rs|
  {
    if rs != [] {
      DecodeRaws(rs[..|rs| - 1]);
      DecodeSplit(Raws(rs[..|rs| - 1]), rs[|rs| - 1]);
      assert rs == rs[..|rs| - 1] + [rs[|rs| - 1]];
    }
  }

  /** A block read back gives the records it was built from. */
  lemma BlockRoundTrip(rs: seq<Record>)
    requires |rs| < TWO32 && forall r :: r in rs ==> FitsEntry(r)
    ensures BlockEntries(BlockBytes(Raws(rs))) == rs
  {
    RawsFit(rs);
    DecodeRaws(rs);
    RawBlock(Raws(rs));
  }

  lemma RawBlock(es: seq<Raw>)
    requires |es| < TWO32 && forall e :: e in es ==> |e.key| < TWO32 && |e.value| < TWO32
    ensures BlockEntries(BlockBytes(es)) == DecodeAll(es)
  {
    hide *;
    var data := BlockBytes(es);
    BlockIs(es);
    AtSplit(data, 0, Le(|es|, 4), EntriesBytes(es));
    Le4(|es|);
    ParseRawsAt(data, 4, es);
    CountFirst(data, |es|);
  }

  lemma BlockIs(es: seq<Raw>)
    ensures At(BlockBytes(es), 0, Le(|es|, 4) + EntriesBytes(es))
  {
    hide Le, EntriesBytes;
  }

  /** The announced number comes first. */
  lemma CountFirst(data: bytes, n: nat)
    requires n < TWO32 && At(data, 0, Le(n, 4))
    ensures BlockEntries(data) == DecodeAll(ParseRaws(data, 4, n))
  {
    hide Le, FromLe, DecodeAll, ParseRaws;
    Le4(n);
  }

  predicate FitsIndexEntry(e: IndexEntry) {
    |e.sep| < TWO32 && e.off < TWO64 && e.len < TWO32
  }

  lemma ParseIndexEntryAt(data: bytes, o: nat, e: IndexEntry)
    requires FitsIndexEntry(e) && At(data, o, IndexEntryBytes(e))
    ensures ParseIndexEntry(data, o) == Ok((e, o + |IndexEntryBytes(e)|))
  {
    AtFields(data, o, Le(|e.sep|, 4), e.sep, Le(e.off, 8), Le(e.len, 4));
    Le4(|e.sep|);
    Le8(e.off);
    Le4(e.len);
  }

  lemma {:induction false} ParseIndexAt(data: bytes, o: nat, es: seq<IndexEntry>)
    requires forall e :: e in es ==> FitsIndexEntry(e)
    requires At(data, o, IndexEntriesBytes(es))
    ensures ParseIndex(data, o, |es|) == Ok(es)
    decreases es
  {
    if es != [] {
      AtSplit(data, o, IndexEntryBytes(es[0]), IndexEntriesBytes(es[1..]));
      ParseIndexEntryAt(data, o, es[0]);
      var next := o + |IndexEntryBytes(es[0])|;
      ParseIndexAt(data, next, es[1..]);
      assert ParseIndex(data, next, |es| - 1) == Ok(es[1..]);
      assert [es[0]] + es[1..] == es;
    }
  }

  lemma IndexRoundTrip(es: seq<IndexEntry>)
    requires |es| < TWO32 && forall e :: e in es ==> FitsIndexEntry(e)
    ensures IndexOf(IndexBytes(es)) == Ok(es)
  {
    var data := IndexBytes(es);
    Le4(|es|);
    assert At(data, 0, data);
    AtSplit(data, 0, Le(|es|, 4), IndexEntriesBytes(es));
    ParseIndexAt(data, 4, es);
  }
}
