/** The file formats, byte by byte: what stands where, and what bytes mean to the decoders. Nothing
    here is said through an encoder (src/key.rs 46-70, src/wal.rs 51-60 and 84-148, src/manifest.rs
    51-91 and 113-185, src/sstable/block.rs, bloom.rs 41-60, builder.rs 66-88, reader.rs 56-101). */
module Formats {
  import opened ByteStrings
  import opened Keys
  import opened Records
  import opened Blocks
  import opened WriteAheadLog
  import opened ManifestLog
  import opened Framing
  import opened Reader
  import Bloom
  import Builder

  // ---------------------------------------------------------------- integers and order

  /** Byte `i` of a little-endian integer. */
  lemma {:induction false} LeByte(n: nat, w: nat, i: nat)
    requires i < w
    ensures Le(n, w)[i] == n / Pow256(i) % 256
  {
    if i > 0 {
      LeByte(n / 256, w - 1, i - 1);
      DivTwice(n, Pow256(i - 1));
      assert Le(n, w)[i] == Le(n / 256, w - 1)[i - 1];
    }
  }

  /** Big-endian is the reverse. */
  lemma {:induction false} BeByte(n: nat, w: nat, i: nat)
    requires i < w
    ensures Be(n, w)[w - 1 - i] == n / Pow256(i) % 256
  {
    if i > 0 {
      BeByte(n / 256, w - 1, i - 1);
      DivTwice(n, Pow256(i - 1));
    }
  }

  lemma DivTwice(n: nat, p: nat)
    requires p > 0
    ensures n / 256 / p == n / (256 * p)
  {
    var q, r := n / 256, n % 256;
    var a, b := q / p, q % p;
    assert n == 256 * (a * p + b) + r;
    assert 256 * (a * p) == (256 * p) * a;
    var d := 256 * p;
    assert n == d * a + (256 * b + r) && 256 * b + r < d;
    Quotient(n, d, a, 256 * b + r);
  }

  /** Byte strings are ordered by the first byte in which they differ, a prefix coming first. */
  lemma {:induction false} LtIs(a: bytes, b: bytes)
    ensures Lt(a, b) <==> exists i: nat :: DiffersAt(a, b, i)
  {
    if Lt(a, b) {
      if |a| > 0 && a[0] == b[0] {
        LtIs(a[1..], b[1..]);
        var i: nat :| DiffersAt(a[1..], b[1..], i);
        assert a[..i + 1] == [a[0]] + a[1..][..i] && b[..i + 1] == [b[0]] + b[1..][..i];
        assert DiffersAt(a, b, i + 1);
      } else {
        assert DiffersAt(a, b, 0);
      }
    }
    if i: nat :| DiffersAt(a, b, i) {
      if i > 0 {
        assert a[0] == a[..i][0] && b[0] == b[..i][0];
        assert a[1..][..i - 1] == a[..i][1..] && b[1..][..i - 1] == b[..i][1..];
        assert DiffersAt(a[1..], b[1..], i - 1);
        LtIs(a[1..], b[1..]);
      }
    }
  }

  predicate DiffersAt(a: bytes, b: bytes, i: nat) {
    i <= |a| && i < |b| && a[..i] == b[..i] && (i == |a| || a[i] < b[i])
  }

  // ---------------------------------------------------------------- keys

  /** Kind 0 is a tombstone, 1 a value. */
  function KindOf(t: byte): ValueKind
    requires t <= 1
  {
    if t == 1 then Put else Delete
  }

  /** An encoded key: the user key, the low 56 bits of the sequence number from the highest byte
      down, and the kind. */
  lemma KeyMeans(u: bytes, n: nat, t: byte)
    requires n < TWO56
    ensures Decode(u + Be(n, 7) + [t]) == if t > 1 then Corrupt else Ok(InternalKey(u, n, KindOf(t)))
  {
    var b := u + Be(n, 7) + [t];
    var tail := b[|b| - 8..];
    assert tail[..7] == Be(n, 7) && tail[7] == t && b[..|b| - 8] == u;
    Seven();
    BeRoundTrip(n, 7);
  }

  lemma Seven()
    ensures Pow256(7) == TWO56
  {
    Pow256Values();
    assert Pow256(8) == 256 * Pow256(7);
  }

  /** Fewer than eight bytes are no key. */
  lemma ShortKeyRefused(b: bytes)
    ensures |b| < 8 ==> Decode(b).Corrupt?
  {
  }

  /** Comparing encodings of which one is too short for a key compares what stands before the last
      eight bytes, nothing for a short one. */
  lemma CompareShort(a: bytes, b: bytes)
    requires |a| < 8 || |b| < 8
    ensures var x, y := if |a| < 8 then [] else a[..|a| - 8], if |b| < 8 then [] else b[..|b| - 8];
            && (CompareEncoded(a, b) == Equal <==> x == y) && (CompareEncoded(a, b) == Less <==> Lt(x, y))
  {
    var x, y := if |a| < 8 then [] else a[..|a| - 8], if |b| < 8 then [] else b[..|b| - 8];
    if Lt(x, y) { LtAsym(x, y); }
    hide Lt, FromBe;
  }

  /** Newer versions of a user key come first. */
  lemma KeyLtIs(a: InternalKey, b: InternalKey)
    ensures KeyLt(a, b) <==>
            || Lt(a.userKey, b.userKey)
            || (a.userKey == b.userKey && (a.seqno > b.seqno || (a.seqno == b.seqno && a.kind == Delete && b.kind == Put)))
  {
    if Lt(a.userKey, b.userKey) { LtAsym(a.userKey, b.userKey); }
  }

  // ---------------------------------------------------------------- frames

  /** A frame: length, checksum, payload. */
  lemma FrameMeans(hash: Bloom.Hash, before: bytes, p: bytes, c: nat, rest: bytes)
    requires |p| < TWO32 && c < TWO32
    ensures NextFrame(hash, before + Le(|p|, 4) + Le(c, 4) + p + rest, |before|)
         == if hash(p) == c then Found(p, |before| + 8 + |p|) else BadChecksum
  {
    hide Le, FromLe;
    var buf, i := before + Le(|p|, 4) + Le(c, 4) + p + rest, |before|;
    assert buf[i..i + 4] == Le(|p|, 4) && buf[i + 4..i + 8] == Le(c, 4) && buf[i + 8..i + 8 + |p|] == p;
    Le4(|p|);
    Le4(c);
  }

  /** Where fewer bytes are left than the header promises, the log ends. */
  lemma FrameEnds(hash: Bloom.Hash, before: bytes, n: nat, c: nat, rest: bytes)
    requires n < TWO32 && c < TWO32 && |rest| < n
    ensures NextFrame(hash, before + Le(n, 4) + Le(c, 4) + rest, |before|) == End
  {
    hide Le, FromLe;
    var buf, i := before + Le(n, 4) + Le(c, 4) + rest, |before|;
    assert buf[i..i + 4] == Le(n, 4);
    Le4(n);
  }

  // ---------------------------------------------------------------- log records

  /** The payload of a log record; it begins with the bytes `EDAJ`. */
  function LogRecord(k: bytes, n: nat, t: byte, v: bytes): bytes {
    [0x45, 0x44, 0x41, 0x4A] + Le(|k|, 4) + k + Le(n, 8) + [t] + Le(|v|, 4) + v
  }

  lemma Fields7(m: bytes, a: bytes, k: bytes, b: bytes, t: byte, c: bytes, v: bytes)
    requires |m| == 4 && |a| == 4 && |b| == 8 && |c| == 4
    ensures var rec, o := m + a + k + b + [t] + c + v, 8 + |k|;
            && |rec| == o + 13 + |v| && rec[0..4] == m && rec[4..8] == a && rec[8..o] == k && rec[o..o + 8] == b
            && rec[o + 8] == t && rec[o + 9..o + 13] == c && rec[o + 13..] == v
  {
  }

  lemma RecordMeans(k: bytes, n: nat, t: byte, v: bytes)
    requires |k| < TWO32 && n < TWO64 && |v| < TWO32
    ensures DecodeRecord(LogRecord(k, n, t, v)) == if t > 1 then Corrupt else Ok(Record(InternalKey(k, n, KindOf(t)), v))
  {
    MagicBytes();
    Fields7([0x45, 0x44, 0x41, 0x4A], Le(|k|, 4), k, Le(n, 8), t, Le(|v|, 4), v);
    hide Le, FromLe;
    Le4(|k|);
    Le8(n);
    Le4(|v|);
  }

  lemma MagicBytes()
    ensures FromLe([0x45, 0x44, 0x41, 0x4A]) == MAGIC
    ensures FromLe([0x4A, 0x54, 0x53, 0x53]) == Builder.SST_MAGIC
  {
    FourBytes(0x45, 0x44, 0x41, 0x4A);
    FourBytes(0x4A, 0x54, 0x53, 0x53);
  }

  lemma FourBytes(a: byte, b: byte, c: byte, d: byte)
    ensures FromLe([a, b, c, d]) == a + 256 * b + 0x1_0000 * c + 0x100_0000 * d
  {
    var none: bytes := [];
    FromLeCons(d, none);
    FromLeCons(c, [d]);
    FromLeCons(b, [c, d]);
    FromLeCons(a, [b, c, d]);
    assert [d] + none == [d] && [c] + [d] == [c, d] && [b] + [c, d] == [b, c, d] && [a] + [b, c, d] == [a, b, c, d];
    hide FromLe;
  }

  lemma FromLeCons(x: byte, rest: bytes)
    ensures FromLe([x] + rest) == x + 256 * FromLe(rest) && FromLe([]) == 0
  {
    assert ([x] + rest)[1..] == rest;
  }

  /** And that is how a record is written. */
  lemma RecordLayout(r: Record)
    ensures RecordBytes(r) == LogRecord(r.ik.userKey, r.ik.seqno, if r.ik.kind == Put then 1 else 0, r.value)
  {
    MagicBytes();
    LeOfFromLe([0x45, 0x44, 0x41, 0x4A]);
    hide Le, FromLe;
    RecordJoin(Le(MAGIC, 4), Le(|r.ik.userKey|, 4), r.ik.userKey, Le(r.ik.seqno, 8), [KindByte(r.ik.kind)],
               Le(|r.value|, 4), r.value);
  }

  lemma RecordJoin(m: bytes, a: bytes, k: bytes, b: bytes, t: bytes, c: bytes, v: bytes)
    ensures m + a + k + (b + t + c + v) == m + a + k + b + t + c + v
  {
  }

  // ---------------------------------------------------------------- manifest edits

  /** Tag 1: file number, level, smallest key, largest key, size. */
  function AddPayload(num: nat, level: nat, lo: bytes, hi: bytes, size: nat): bytes {
    [1] + Le(num, 8) + Le(level, 4) + Le(|lo|, 4) + lo + Le(|hi|, 4) + hi + Le(size, 8)
  }

  lemma AddMeans(num: nat, level: nat, lo: bytes, hi: bytes, size: nat)
    requires num < TWO64 && level < TWO32 && |lo| < TWO32 && |hi| < TWO32 && size < TWO64
    ensures DecodeEdit(AddPayload(num, level, lo, hi, size)) == Loaded(AddFile(FileMeta(num, level, lo, hi, size)))
  {
    AddPieces8([1], Le(num, 8), Le(level, 4), Le(|lo|, 4), lo, Le(|hi|, 4), hi, Le(size, 8));
    hide Le, FromLe;
    Le8(num);
    Le4(level);
    Le4(|lo|);
    Le4(|hi|);
    Le8(size);
  }

  lemma AddPieces8(t: bytes, a: bytes, b: bytes, c: bytes, lo: bytes, d: bytes, hi: bytes, e: bytes)
    requires |t| == 1 && |a| == 8 && |b| == 4 && |c| == 4 && |d| == 4 && |e| == 8
    ensures var x, o := t + a + b + c + lo + d + hi + e, 17 + |lo|;
            var p := o + 4 + |hi|;
            && |x| == p + 8 && x[0] == t[0] && x[1..9] == a && x[9..13] == b && x[13..17] == c && x[17..o] == lo
            && x[o..o + 4] == d && x[o + 4..p] == hi && x[p..p + 8] == e
  {
  }

  /** Tag 2: level and file number. */
  lemma DeleteMeans(level: nat, num: nat)
    requires level < TWO32 && num < TWO64
    ensures DecodeEdit([2] + Le(level, 4) + Le(num, 8)) == Loaded(DeleteFile(level, num))
  {
    hide Le, FromLe;
    var b := [2] + Le(level, 4) + Le(num, 8);
    assert b[1..5] == Le(level, 4) && b[5..13] == Le(num, 8);
    Le4(level);
    Le8(num);
  }

  /** Tag 3 is the file counter, tag 4 the last sequence number. */
  lemma CountersMean(n: nat)
    requires n < TWO64
    ensures DecodeEdit([3] + Le(n, 8)) == Loaded(SetNextFileNum(n))
    ensures DecodeEdit([4] + Le(n, 8)) == Loaded(SetLastSeq(n))
  {
    hide Le, FromLe;
    var b, c := [3] + Le(n, 8), [4] + Le(n, 8);
    assert b[1..9] == Le(n, 8) && c[1..9] == Le(n, 8);
    Le8(n);
  }

  /** No other tag is known. */
  lemma OtherTags(b: bytes)
    ensures b == [] || b[0] == 0 || b[0] > 4 ==> DecodeEdit(b).Refused?
  {
  }

  /** How each edit is written. */
  lemma EditLayout(e: Edit)
    ensures EditBytes(e) == match e
                            case AddFile(m) => AddPayload(m.num, m.level, m.smallest, m.largest, m.size)
                            case DeleteFile(level, num) => [2] + Le(level, 4) + Le(num, 8)
                            case SetNextFileNum(n) => [3] + Le(n, 8)
                            case SetLastSeq(s) => [4] + Le(s, 8)
  {
    hide Le;
    if e.AddFile? {
      var m := e.meta;
      AddJoin([1], Le(m.num, 8), Le(m.level, 4), Le(|m.smallest|, 4), m.smallest, Le(|m.largest|, 4), m.largest,
              Le(m.size, 8));
    }
  }

  lemma AddJoin(t: bytes, a: bytes, b: bytes, c: bytes, lo: bytes, d: bytes, hi: bytes, e: bytes)
    ensures t + a + (b + c) + (lo + d + (hi + e)) == t + a + b + c + lo + d + hi + e
  {
  }

  /** How a payload is framed. */
  function FrameLayout(hash: Bloom.Hash, p: bytes): bytes {
    Le(|p|, 4) + Le(hash(p), 4) + p
  }

  lemma FrameIs(hash: Bloom.Hash, p: bytes)
    ensures Frame(hash, p) == FrameLayout(hash, p)
  {
    hide Le;
  }

  /** A new database's manifest, from its bytes: the two counters. */
  lemma FirstManifest(hash: Bloom.Hash, n: nat, q: nat)
    requires n < TWO64 && q < TWO64
    ensures RecoveredCatalog(hash, FrameLayout(hash, [3] + Le(n, 8)) + FrameLayout(hash, [4] + Le(q, 8)))
         == Loaded(Catalog([], n, q))
  {
    hide *;
    var e1, e2 := SetNextFileNum(n), SetLastSeq(q);
    var es := [e1, e2];
    assert es[1..] == [e2] && [e2][1..] == [];
    CountersFit(n, q);
    ManifestStep(hash, es);
    ManifestStep(hash, [e2]);
    ManifestStep(hash, []);
    EditLayout(e1);
    EditLayout(e2);
    FrameIs(hash, EditBytes(e1));
    FrameIs(hash, EditBytes(e2));
    assert FrameLayout(hash, EditBytes(e2)) + ManifestBytes(hash, []) == FrameLayout(hash, EditBytes(e2));
    assert es == [e1, e2] && forall e :: e in es ==> e == e1 || e == e2;
    WholeManifest(hash, es);
    Counted(n, q);
  }

  lemma CountersFit(n: nat, q: nat)
    requires n < TWO64 && q < TWO64
    ensures FitsEdit(SetNextFileNum(n)) && FitsEdit(SetLastSeq(q))
  {
    hide Le;
  }

  lemma Counted(n: nat, q: nat)
    ensures Replay([SetNextFileNum(n), SetLastSeq(q)]) == Catalog([], n, q)
  {
    ApplyStep(EmptyCatalog, [SetNextFileNum(n), SetLastSeq(q)]);
    ApplyStep(Catalog([], n, 0), [SetLastSeq(q)]);
    ApplyStep(Catalog([], n, q), []);
    hide ApplyAll;
  }

  // ---------------------------------------------------------------- blocks

  /** A block entry: key length, key, value length, value. */
  function EntryLayout(k: bytes, v: bytes): bytes {
    Le(|k|, 4) + k + (Le(|v|, 4) + v)
  }

  lemma EntryMeans(data: bytes, o: nat, k: bytes, v: bytes)
    requires |k| < TWO32 && |v| < TWO32 && At(data, o, EntryLayout(k, v))
    ensures ParseRaw(data, o) == Some((Raw(k, v), o + 8 + |k| + |v|))
  {
    AtFields(data, o, Le(|k|, 4), k, Le(|v|, 4), v);
    Le4(|k|);
    Le4(|v|);
    hide Le, FromLe;
  }

  lemma ParsedParts(data: bytes, o: nat)
    requires ParseRaw(data, o).Some?
    ensures var e := ParseRaw(data, o).value.0;
            var p := o + 8 + |e.key|;
            && p + |e.value| <= |data|
            && FromLe(data[o..o + 4]) == |e.key| && data[o + 4..o + 4 + |e.key|] == e.key
            && FromLe(data[p - 4..p]) == |e.value| && data[p..p + |e.value|] == e.value
  {
    hide FromLe;
  }

  /** No entry is read where the data does not hold one. */
  lemma EntryRead(data: bytes, o: nat)
    ensures ParseRaw(data, o).Some? <==> exists e: Raw :: |e.key| < TWO32 && |e.value| < TWO32 && At(data, o, EntryBytes(e))
  {
    hide *;
    if ParseRaw(data, o).Some? {
      var e := ParseRaw(data, o).value.0;
      var p := o + 8 + |e.key|;
      ParsedParts(data, o);
      LeOfFromLe(data[o..o + 4]);
      LeOfFromLe(data[p - 4..p]);
      FromLeBound(data[o..o + 4]);
      FromLeBound(data[p - 4..p]);
      Pow256Values();
      EntryPieces(data, o, |e.key|, |e.value|);
      EntryAt(data, o, e);
    }
    if e: Raw :| |e.key| < TWO32 && |e.value| < TWO32 && At(data, o, EntryBytes(e)) { ParseRawAt(data, o, e); }
  }

  lemma EntryAt(data: bytes, o: nat, e: Raw)
    requires var p := o + 8 + |e.key|;
             && p + |e.value| <= |data|
             && data[o..p + |e.value|] == Le(|e.key|, 4) + e.key + (Le(|e.value|, 4) + e.value)
    ensures At(data, o, EntryBytes(e))
  {
    hide Le;
  }

  lemma EntryPieces(data: bytes, o: nat, n: nat, m: nat)
    requires o + 8 + n + m <= |data|
    ensures var p := o + 4 + n;
            data[o..o + 4] + data[o + 4..p] + (data[p..p + 4] + data[p + 4..p + 4 + m]) == data[o..p + 4 + m]
  {
  }

  /** A block: the number of entries, then the entries. One of them: */
  lemma BlockMeans(u: bytes, n: nat, t: byte, v: bytes)
    requires |u| + 8 < TWO32 && n < TWO56 && t <= 1 && |v| < TWO32
    ensures BlockEntries(Le(1, 4) + EntryLayout(u + Be(n, 7) + [t], v)) == [Record(InternalKey(u, n, KindOf(t)), v)]
  {
    hide *;
    var k := u + Be(n, 7) + [t];
    var x := Le(1, 4) + EntryLayout(k, v);
    Whole(x);
    AtSplit(x, 0, Le(1, 4), EntryLayout(k, v));
    assert 1 < TWO32;
    KeyMeans(u, n, t);
    EntryMeans(x, 4, k, v);
    OneRaw(x, 4 + 8 + |k| + |v|, Raw(k, v));
    CountFirst(x, 1);
  }

  lemma Whole(x: bytes)
    ensures At(x, 0, x)
  {
  }

  lemma AtFront(x: bytes, a: bytes)
    requires At(x, 0, a)
    ensures |x| >= |a| && x[..|a|] == a
  {
  }

  lemma OneRaw(x: bytes, next: nat, e: Raw)
    requires ParseRaw(x, 4) == Some((e, next)) && Decode(e.key).Ok?
    ensures DecodeAll(ParseRaws(x, 4, 1)) == [Record(Decode(e.key).value, e.value)]
  {
    hide ParseRaw, Decode;
    assert ParseRaws(x, next, 0) == [];
    assert [e][1..] == [] && [e] + [] == [e];
  }

  // ---------------------------------------------------------------- the index of a table

  /** An index entry: separator length, separator, offset, length. */
  function IndexEntryLayout(sep: bytes, off: nat, len: nat): bytes {
    Le(|sep|, 4) + sep + (Le(off, 8) + Le(len, 4))
  }

  lemma IndexEntryMeans(data: bytes, o: nat, sep: bytes, off: nat, len: nat)
    requires |sep| < TWO32 && off < TWO64 && len < TWO32 && At(data, o, IndexEntryLayout(sep, off, len))
    ensures ParseIndexEntry(data, o) == Ok((IndexEntry(sep, off, len), o + 16 + |sep|))
  {
    AtFields(data, o, Le(|sep|, 4), sep, Le(off, 8), Le(len, 4));
    Le4(|sep|);
    Le8(off);
    Le4(len);
    hide Le, FromLe;
  }

  /** The index: the number of entries, then the entries. */
  lemma IndexMeans(sep: bytes, off: nat, len: nat)
    requires |sep| < TWO32 && off < TWO64 && len < TWO32
    ensures IndexOf(Le(1, 4) + IndexEntryLayout(sep, off, len)) == Ok([IndexEntry(sep, off, len)])
    ensures forall b: bytes :: |b| < 4 ==> IndexOf(b).Corrupt?
  {
    hide Le, FromLe, ParseIndex, IndexEntryLayout, At;
    var x := Le(1, 4) + IndexEntryLayout(sep, off, len);
    Whole(x);
    AtSplit(x, 0, Le(1, 4), IndexEntryLayout(sep, off, len));
    AtFront(x, Le(1, 4));
    Le4(1);
    IndexEntryMeans(x, 4, sep, off, len);
    OneIndexEntry(x, 4 + 16 + |sep|, IndexEntry(sep, off, len));
  }

  lemma OneIndexEntry(x: bytes, next: nat, e: IndexEntry)
    requires ParseIndexEntry(x, 4) == Ok((e, next))
    ensures ParseIndex(x, 4, 1) == Ok([e])
  {
    hide ParseIndexEntry;
    assert ParseIndex(x, next, 0) == Ok([]);
    assert [e] + [] == [e];
  }

  /** An index is accepted only where the entries it announces are all there. */
  lemma {:induction false} IndexRead(data: bytes, o: nat, n: nat)
    requires o <= |data| && ParseIndex(data, o, n).Ok?
    ensures |ParseIndex(data, o, n).value| == n
    ensures At(data, o, IndexEntriesBytes(ParseIndex(data, o, n).value))
    decreases n
  {
    if n > 0 {
      var (e, next) := ParseIndexEntry(data, o).value;
      IndexEntryRead(data, o);
      IndexRead(data, next, n - 1);
      var es := ParseIndex(data, next, n - 1).value;
      assert ([e] + es)[1..] == es;
      hide IndexEntryBytes, ParseIndexEntry, IndexEntriesBytes, ParseIndex;
      var a, b := IndexEntryBytes(e), IndexEntriesBytes(es);
      assert data[o..o + |a + b|] == data[o..next] + data[next..next + |b|];
      Joined([e] + es);
    }
  }

  lemma Joined(es: seq<IndexEntry>)
    ensures es != [] ==> IndexEntriesBytes(es) == IndexEntryBytes(es[0]) + IndexEntriesBytes(es[1..])
  {
  }

  lemma IndexEntryRead(data: bytes, o: nat)
    requires ParseIndexEntry(data, o).Ok?
    ensures var (e, next) := ParseIndexEntry(data, o).value;
            At(data, o, IndexEntryBytes(e)) && next == o + |IndexEntryBytes(e)| <= |data|
  {
    var p := o + 4;
    var q := p + FromLe(data[o..p]);
    LeOfFromLe(data[o..p]);
    LeOfFromLe(data[q..q + 8]);
    LeOfFromLe(data[q + 8..q + 12]);
    hide Le, FromLe;
    IndexPieces(data, o, p, q);
  }

  lemma IndexPieces(data: bytes, o: nat, p: nat, q: nat)
    requires o <= p <= q && q + 12 <= |data|
    ensures data[o..p] + data[p..q] + (data[q..q + 8] + data[q + 8..q + 12]) == data[o..q + 12]
  {
  }

  // ---------------------------------------------------------------- bloom filter and footer

  /** An encoded filter: number of probes, number of bits, the bits. */
  lemma FilterMeans(k: nat, nbits: nat, bits: bytes)
    requires k < TWO32 && nbits < TWO64
    ensures Bloom.Decode(Le(k, 4) + Le(nbits, 8) + bits) == Ok(Bloom.BloomFilter(bits, nbits, k))
    ensures forall b: bytes :: |b| < 12 ==> Bloom.Decode(b).Corrupt?
  {
    hide Le, FromLe;
    var b := Le(k, 4) + Le(nbits, 8) + bits;
    assert b[..4] == Le(k, 4) && b[4..12] == Le(nbits, 8) && b[12..] == bits;
    Le4(k);
    Le8(nbits);
  }

  /** The last 44 bytes of a table file begin with `JTSS`. */
  function FooterBytes(dataEnd: nat, indexOff: nat, indexLen: nat, bloomOff: nat, bloomLen: nat): bytes {
    [0x4A, 0x54, 0x53, 0x53] + Le(dataEnd, 8) + Le(indexOff, 8) + Le(indexLen, 8) + Le(bloomOff, 8) + Le(bloomLen, 8)
  }

  /** A table file opens as its footer says: the index and the filter stand where it points, and
      anything that is not there or does not decode is an error. */
  lemma FileMeans(body: bytes, x: nat, io: nat, il: nat, bo: nat, bl: nat, num: nat, lo: bytes, hi: bytes)
    requires x < TWO64 && io < TWO64 && il < TWO64 && bo < TWO64 && bl < TWO64
    ensures var file := body + FooterBytes(x, io, il, bo, bl);
            Open(file, num, lo, hi) ==
            if io + il > |file| || bo + bl > |file| || IndexOf(file[io..io + il]).Corrupt?
               || Bloom.Decode(file[bo..bo + bl]).Corrupt? then Corrupt
            else Ok(SsTable(num, lo, hi, |file|, IndexOf(file[io..io + il]).value, Bloom.Decode(file[bo..bo + bl]).value))
  {
    MagicBytes();
    Pieces44([0x4A, 0x54, 0x53, 0x53], Le(x, 8), Le(io, 8), Le(il, 8), Le(bo, 8), Le(bl, 8));
    hide Le, FromLe, IndexOf, Bloom.Decode;
    var foot := FooterBytes(x, io, il, bo, bl);
    var file := body + foot;
    assert file[|file| - 44..] == foot;
    Le8(io);
    Le8(il);
    Le8(bo);
    Le8(bl);
  }

  /** Too short a file, or one whose footer begins otherwise, is refused. */
  lemma FileRefused(file: bytes, num: nat, lo: bytes, hi: bytes)
    ensures |file| < 44 ==> Open(file, num, lo, hi).Corrupt?
    ensures |file| >= 44 && file[|file| - 44..][..4] != [0x4A, 0x54, 0x53, 0x53] ==> Open(file, num, lo, hi).Corrupt?
  {
    if |file| >= 44 && Open(file, num, lo, hi).Ok? {
      var foot := file[|file| - 44..];
      assert FromLe(foot[0..4]) == Builder.SST_MAGIC;
      LeOfFromLe(foot[0..4]);
      MagicBytes();
      LeOfFromLe([0x4A, 0x54, 0x53, 0x53]);
      assert foot[0..4] == foot[..4];
    }
  }

  lemma FooterLayout(dataEnd: nat, indexOff: nat, indexLen: nat, bloomOff: nat, bloomLen: nat)
    ensures Builder.Footer(dataEnd, indexOff, indexLen, bloomOff, bloomLen)
         == FooterBytes(dataEnd, indexOff, indexLen, bloomOff, bloomLen)
  {
    MagicBytes();
    LeOfFromLe([0x4A, 0x54, 0x53, 0x53]);
    hide Le, FromLe;
  }

  /** A table file: the blocks, the index behind them, the filter behind that, and the footer. */
  lemma TableLayout(fmt: Builder.Format, rs: seq<Record>)
    ensures var cs := Builder.ChunksOf(fmt, rs);
            var data, index, filter := Builder.Data(cs), IndexBytes(Builder.Index(cs)), Bloom.Encode(Builder.FilterOf(fmt, rs));
            Builder.TableBytes(fmt, rs) == FileLayout(data, index, filter)
  {
    hide Builder.ChunksOf, Builder.Data, IndexBytes, Builder.Index, Bloom.Encode, Builder.FilterOf, Builder.Footer, FooterBytes;
    var cs := Builder.ChunksOf(fmt, rs);
    var data, index, filter := Builder.Data(cs), IndexBytes(Builder.Index(cs)), Bloom.Encode(Builder.FilterOf(fmt, rs));
    FooterLayout(|data|, |data|, |index|, |data| + |index|, |filter|);
  }

  function FileLayout(data: bytes, index: bytes, filter: bytes): bytes {
    data + index + filter + FooterBytes(|data|, |data|, |index|, |data| + |index|, |filter|)
  }

  // ---------------------------------------------------------------- damaged logs and manifests

  /** A log that goes on, behind whole frames, with a frame whose checksum does not match is refused,
      and so is one with a payload that is no record. What follows does not matter. */
  lemma DamagedLog(hash: Bloom.Hash, rs: seq<Record>, p: bytes, c: nat, rest: bytes)
    requires (forall r :: r in rs ==> FitsRecord(r)) && |p| < TWO32 && c < TWO32
    requires hash(p) != c || DecodeRecord(p).Corrupt?
    ensures Recovered(hash, LogBytes(hash, rs) + Le(|p|, 4) + Le(c, 4) + p + rest).Corrupt?
  {
    hide *;
    var w, ps := LogBytes(hash, rs), Encoded(rs);
    var buf := w + Le(|p|, 4) + Le(c, 4) + p + rest;
    FrameMeans(hash, w, p, c, rest);
    Framed(hash, rs);
    assert buf[0..|w|] == w;
    AtStart(buf, w);
    PayloadsAfter(hash, ps, buf, 0);
    NextPayload(hash, buf, |w|);
    RefusedThen(hash, buf, ps, p);
  }

  lemma AtStart(buf: bytes, w: bytes)
    requires |w| <= |buf| && buf[0..|w|] == w
    ensures At(buf, 0, w)
  {
  }

  lemma Framed(hash: Bloom.Hash, rs: seq<Record>)
    requires forall r :: r in rs ==> FitsRecord(r)
    ensures LogBytes(hash, rs) == Frames(hash, Encoded(rs)) && FitPayloads(Encoded(rs))
  {
    hide Frames, RecordBytes;
    forall p | p in Encoded(rs) ensures |p| < TWO32 {
      var i :| 0 <= i < |rs| && Encoded(rs)[i] == p;
      assert rs[i] in rs;
    }
  }

  lemma RefusedThen(hash: Bloom.Hash, buf: bytes, ps: seq<bytes>, p: bytes)
    requires exists more: Result<seq<bytes>> :: Payloads(hash, buf, 0) == Prepend(ps, more)
               && (more == Corrupt || (DecodeRecord(p).Corrupt? && exists rest: Result<seq<bytes>> :: more == Prepend([p], rest)))
    ensures Recovered(hash, buf).Corrupt?
  {
    hide Payloads, DecodeRecord;
    var more: Result<seq<bytes>> :| Payloads(hash, buf, 0) == Prepend(ps, more)
               && (more == Corrupt || (DecodeRecord(p).Corrupt? && exists rest: Result<seq<bytes>> :: more == Prepend([p], rest)));
    if more.Ok? {
      var rest: Result<seq<bytes>> :| more == Prepend([p], rest);
      BadAmong(ps, p, rest.value);
      assert ps + ([p] + rest.value) == ps + [p] + rest.value;
    }
  }

  lemma {:induction false} BadAmong(ps: seq<bytes>, p: bytes, rest: seq<bytes>)
    requires DecodeRecord(p).Corrupt?
    ensures DecodeRecords(ps + [p] + rest).Corrupt?
  {
    hide DecodeRecord;
    if ps != [] {
      BadAmong(ps[1..], p, rest);
      assert (ps + [p] + rest)[1..] == ps[1..] + [p] + rest;
    }
  }

  /** A manifest likewise: a bad checksum or an unknown tag behind whole edits is refused, and a
      payload cut short makes it panic. */
  lemma DamagedManifest(hash: Bloom.Hash, es: seq<Edit>, p: bytes, c: nat, rest: bytes)
    requires (forall e :: e in es ==> FitsEdit(e)) && |p| < TWO32 && c < TWO32
    ensures var file := ManifestBytes(hash, es) + Le(|p|, 4) + Le(c, 4) + p + rest;
            && (hash(p) != c || DecodeEdit(p).Refused? ==> RecoveredCatalog(hash, file).Refused?)
            && (hash(p) == c && DecodeEdit(p).Panics? ==> RecoveredCatalog(hash, file).Panics?)
  {
    hide *;
    var w := ManifestBytes(hash, es);
    var buf := w + Le(|p|, 4) + Le(c, 4) + p + rest;
    FrameMeans(hash, w, p, c, rest);
    assert buf[0..|w|] == w;
    AtStart(buf, w);
    EditsAfter(hash, es, buf, 0, EmptyCatalog);
    LoadsFromStart(hash, buf);
    NextEdit(hash, buf, |w|, ApplyAll(EmptyCatalog, es));
  }

  lemma LoadsFromStart(hash: Bloom.Hash, buf: bytes)
    ensures RecoveredCatalog(hash, buf) == LoadFrom(hash, buf, 0, EmptyCatalog)
  {
  }

  lemma NextEdit(hash: Bloom.Hash, buf: bytes, i: nat, c: Catalog)
    ensures LoadFrom(hash, buf, i, c) == match NextFrame(hash, buf, i)
                                         case End => Loaded(c)
                                         case BadChecksum => Refused
                                         case Found(p, next) =>
                                           match DecodeEdit(p)
                                           case Refused => Refused
                                           case Panics => Panics
                                           case Loaded(e) => LoadFrom(hash, buf, next, Applied(c, e))
  {
    hide NextFrame, DecodeEdit, Applied;
  }

  lemma {:induction false} EditsAfter(hash: Bloom.Hash, es: seq<Edit>, buf: bytes, i: nat, c: Catalog)
    requires (forall e :: e in es ==> FitsEdit(e)) && At(buf, i, ManifestBytes(hash, es))
    ensures LoadFrom(hash, buf, i, c) == LoadFrom(hash, buf, i + |ManifestBytes(hash, es)|, ApplyAll(c, es))
    decreases |es|
  {
    hide *;
    ManifestStep(hash, es);
    ApplyStep(c, es);
    if es != [] {
      var e, more := es[0], es[1..];
      var f := Frame(hash, EditBytes(e));
      assert e in es && forall x :: x in more ==> x in es;
      EditFits(e);
      EditRoundTrip(e);
      AtSplit(buf, i, f, ManifestBytes(hash, more));
      FrameAt(hash, buf, i, EditBytes(e));
      NextEdit(hash, buf, i, c);
      EditsAfter(hash, more, buf, i + |f|, Applied(c, e));
    }
  }

  lemma ManifestStep(hash: Bloom.Hash, es: seq<Edit>)
    ensures es == [] ==> ManifestBytes(hash, es) == []
    ensures es != [] ==> ManifestBytes(hash, es) == Frame(hash, EditBytes(es[0])) + ManifestBytes(hash, es[1..])
  {
    hide Frame, EditBytes;
    if es != [] { assert EncodedEdits(es)[1..] == EncodedEdits(es[1..]); }
  }

  lemma ApplyStep(c: Catalog, es: seq<Edit>)
    ensures es == [] ==> ApplyAll(c, es) == c
    ensures es != [] ==> ApplyAll(c, es) == ApplyAll(Applied(c, es[0]), es[1..])
  {
    hide Applied;
    if es != [] {
      ApplySplit(c, [es[0]], es[1..]);
      assert [es[0]] + es[1..] == es && [es[0]][..0] == [];
      assert ApplyAll(c, [es[0]][..0]) == c;
    }
  }
}
