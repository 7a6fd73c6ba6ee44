/** The write-ahead log (src/wal.rs). */
module WriteAheadLog {
  import opened ByteStrings
  import opened Keys
  import opened Records
  import opened Bloom
  import opened Framing

  const MAGIC := 0x4A41_4445
  const BATCH_BYTES := 256 * 1024

  datatype FsyncMode = Always | Batch | Never

  /** `magic, klen, key, seq, kind, vlen, value`. */
  function RecordBytes(r: Record): bytes {
    Le(MAGIC, 4) + Le(|r.ik.userKey|, 4) + r.ik.userKey
    + (Le(r.ik.seqno, 8) + [KindByte(r.ik.kind)] + Le(|r.value|, 4) + r.value)
  }

  function DecodeRecord(rec: bytes): Result<Record> {
    if |rec| < 4 + 4 + 8 + 1 + 4 then Corrupt
    else if FromLe(rec[0..4]) != MAGIC then Corrupt
    else
      var klen := FromLe(rec[4..8]);
      var o := 8 + klen;
      if o + 8 + 1 + 4 > |rec| then Corrupt
      else
        match KindFromByte(rec[o + 8])
        case None => Corrupt
        case Some(kind) =>
          var vlen := FromLe(rec[o + 9..o + 13]);
          if o + 13 + vlen != |rec| then Corrupt
          else Ok(Record(InternalKey(rec[8..o], FromLe(rec[o..o + 8]), kind), rec[o + 13..]))
  }

  ghost predicate FitsRecord(r: Record) {
    |RecordBytes(r)| < TWO32 && r.ik.seqno < TWO64
  }

  /** The fields of a record's payload at their offsets. */
  lemma RecordFields(r: Record)
    ensures var rec, o := RecordBytes(r), 8 + |r.ik.userKey|;
            && |rec| == o + 13 + |r.value|
            && rec[0..4] == Le(MAGIC, 4) && rec[4..8] == Le(|r.ik.userKey|, 4) && rec[8..o] == r.ik.userKey
            && rec[o..o + 8] == Le(r.ik.seqno, 8) && rec[o + 8] == KindByte(r.ik.kind)
            && rec[o + 9..o + 13] == Le(|r.value|, 4) && rec[o + 13..] == r.value
  {
  }

  lemma RecordRoundTrip(r: Record)
    requires FitsRecord(r)
    ensures DecodeRecord(RecordBytes(r)) == Ok(r)
  {
    hide Le, FromLe;
    RecordFields(r);
    Le4(MAGIC);
    Le4(|r.ik.userKey|);
    Le8(r.ik.seqno);
    Le4(|r.value|);
  }

  /** `decode_record` accepts only bytes that encode what it returns. */
  lemma DecodedRecord(rec: bytes)
    requires DecodeRecord(rec).Ok?
    ensures RecordBytes(DecodeRecord(rec).value) == rec
  {
    var o := 8 + FromLe(rec[4..8]);
    LeOfFromLe(rec[0..4]);
    LeOfFromLe(rec[4..8]);
    LeOfFromLe(rec[o..o + 8]);
    LeOfFromLe(rec[o + 9..o + 13]);
    RecordPieces(rec, o);
  }

  lemma RecordPieces(rec: bytes, o: nat)
    requires 8 <= o && o + 13 <= |rec|
    ensures rec[0..4] + rec[4..8] + rec[8..o] + (rec[o..o + 8] + [rec[o + 8]] + rec[o + 9..o + 13] + rec[o + 13..])
        == rec
  {
  }

  function Encoded(rs: seq<Record>): (ps: seq<bytes>)
    ensures |ps| == |rs| && forall i :: 0 <= i < |rs| ==> ps[i] == RecordBytes(rs[i])
  {
    seq(|rs|, i requires 0 <= i < |rs| => RecordBytes(rs[i]))
  }

  /** The log file after appending `rs`. */
  function LogBytes(hash: Hash, rs: seq<Record>): bytes {
    Frames(hash, Encoded(rs))
  }

  function DecodeRecords(ps: seq<bytes>): Result<seq<Record>> {
    if ps == [] then Ok([])
    else
      match DecodeRecord(ps[0])
      case Corrupt => Corrupt
      case Ok(r) =>
        match DecodeRecords(ps[1..])
        case Corrupt => Corrupt
        case Ok(rs) => Ok([r] + rs)
  }

  /** What `Wal::recover` returns for a file. */
  function Recovered(hash: Hash, buf: bytes): Result<seq<Record>> {
    match Payloads(hash, buf, 0)
    case Corrupt => Corrupt
    case Ok(ps) => DecodeRecords(ps)
  }

  /** Continue a recovery that has already read `out`. */
  function Continue(out: seq<Record>, rest: Result<seq<bytes>>): Result<seq<Record>> {
    match rest
    case Corrupt => Corrupt
    case Ok(ps) =>
      match DecodeRecords(ps)
      case Corrupt => Corrupt
      case Ok(rs) => Ok(out + rs)
  }

  lemma ContinueStep(out: seq<Record>, rec: bytes, rest: Result<seq<bytes>>)
    ensures Continue(out, Prepend([rec], rest)) == match DecodeRecord(rec)
                                                   case Corrupt => Corrupt
                                                   case Ok(r) => Continue(out + [r], rest)
  {
    if rest.Ok? {
      assert ([rec] + rest.value)[1..] == rest.value;
      if DecodeRecord(rec).Ok? {
        var r := DecodeRecord(rec).value;
        assert forall rs :: out + ([r] + rs) == out + [r] + rs;
      }
    }
  }

  method Recover(hash: Hash, file: Option<bytes>) returns (r: Result<seq<Record>>)
    ensures r == match file case None => Ok([]) case Some(buf) => Recovered(hash, buf)
  {
    hide DecodeRecord;
    if file.None? { return Ok([]); }
    var buf := file.value;
    var out: seq<Record> := [];
    var i := 0;
    assert forall rs: seq<Record> :: [] + rs == rs;
    while i + 8 <= |buf|
      invariant i <= |buf|
      invariant Recovered(hash, buf) == Continue(out, Payloads(hash, buf, i))
    {
      var len := FromLe(buf[i..i + 4]);
      var crc := FromLe(buf[i + 4..i + 8]);
      if i + 8 + len > |buf| { break; }
      var rec := buf[i + 8..i + 8 + len];
      if hash(rec) != crc { return Corrupt; }
      ContinueStep(out, rec, Payloads(hash, buf, i + 8 + len));
      i := i + 8 + len;
      var entry := DecodeRecord(rec);
      if entry.Corrupt? { return Corrupt; }
      out := out + [entry.value];
    }
    assert out + [] == out;
    return Ok(out);
  }

  lemma {:induction false} DecodeEncoded(rs: seq<Record>, ps: seq<bytes>)
    requires |ps| == |rs| && forall i :: 0 <= i < |rs| ==> FitsRecord(rs[i]) && ps[i] == RecordBytes(rs[i])
    ensures DecodeRecords(ps) == Ok(rs)
    decreases ps
  {
    if ps != [] {
      RecordRoundTrip(rs[0]);
      DecodeEncoded(rs[1..], ps[1..]);
      assert [rs[0]] + rs[1..] == rs;
    }
  }

  /** The records whose frames lie wholly in the first `n` bytes of the log. */
  function CompleteRecords(rs: seq<Record>, n: nat): nat {
    Complete(Encoded(rs), n)
  }

  /** Recovery of any byte-prefix of a log succeeds with exactly the records whose frames are
      complete in it. */
  lemma TruncatedLog(hash: Hash, rs: seq<Record>, n: nat)
    requires forall r :: r in rs ==> FitsRecord(r)
    requires n <= |LogBytes(hash, rs)|
    ensures CompleteRecords(rs, n) <= |rs|
    ensures Recovered(hash, LogBytes(hash, rs)[..n]) == Ok(rs[..CompleteRecords(rs, n)])
  {
    hide Payloads, Complete, RecordBytes, DecodeRecords, Frames;
    var ps, buf := Encoded(rs), LogBytes(hash, rs)[..n];
    assert buf[0..] == buf;
    assert forall i :: 0 <= i < |rs| ==> rs[i] in rs;
    PrefixRecovers(hash, ps, buf, 0);
    var c := CompleteRecords(rs, n);
    DecodeEncoded(rs[..c], ps[..c]);
  }

  /** What recovery returns, logged again, is a prefix of the file it was read from. */
  lemma RecoveredIsPrefix(hash: Hash, buf: bytes)
    requires Recovered(hash, buf).Ok?
    ensures LogBytes(hash, Recovered(hash, buf).value) <= buf
  {
    var ps := Payloads(hash, buf, 0).value;
    AcceptedBytes(hash, buf, 0);
    EncodedDecoded(ps);
    assert buf[0..] == buf;
  }

  lemma {:induction false} EncodedDecoded(ps: seq<bytes>)
    requires DecodeRecords(ps).Ok?
    ensures Encoded(DecodeRecords(ps).value) == ps
  {
    if ps != [] {
      DecodedRecord(ps[0]);
      EncodedDecoded(ps[1..]);
      var rs := DecodeRecords(ps).value;
      assert rs[1..] == DecodeRecords(ps[1..]).value;
      assert forall i :: 0 < i < |rs| ==> rs[i] == rs[1..][i - 1];
    }
  }

  // ---------------------------------------------------------------- what a crash may take

  /** The size of the log's frames. */
  function FramedBytes(rs: seq<Record>): nat {
    if rs == [] then 0 else FramedBytes(rs[..|rs| - 1]) + |RecordBytes(rs[|rs| - 1])| + 8
  }

  lemma {:induction false} FramedBytesAre(hash: Hash, rs: seq<Record>)
    ensures |LogBytes(hash, rs)| == FramedBytes(rs)
  {
    hide RecordBytes;
    if rs != [] {
      hide *;
      var front, r := rs[..|rs| - 1], rs[|rs| - 1];
      FramedBytesAre(hash, front);
      LogGrows(hash, front, r);
      assert front + [r] == rs;
      FramedBytesStep(rs);
    }
  }

  lemma FramedBytesStep(rs: seq<Record>)
    requires rs != []
    ensures FramedBytes(rs) == FramedBytes(rs[..|rs| - 1]) + |RecordBytes(rs[|rs| - 1])| + 8
  {
  }

  /** The log as records: all since it was created, how many of them are known to be on disk,
      the bytes appended since the last sync, and behind how many records the rest of a frame
      stands that a crash tore before the log was reopened. */
  datatype Log = Log(recs: seq<Record>, durable: nat, pending: nat, torn: Option<nat>)
  {
    function Append(fsync: FsyncMode, r: Record): Log {
      var all, more := recs + [r], pending + |RecordBytes(r)| + 8;
      match fsync
      case Always => Log(all, |all|, more, torn)
      case Batch => if more >= BATCH_BYTES then Log(all, |all|, 0, torn) else Log(all, durable, more, torn)
      case Never => Log(all, durable, more, torn)
    }

    function Sync(fsync: FsyncMode): Log {
      if fsync == Never then this else Log(recs, |recs|, 0, torn)
    }

    /** Nothing was appended behind torn bytes. */
    predicate Whole() {
      torn == None || torn == Some(|recs|)
    }

    /** What is on disk for sure: everything in `Always` mode, all but 256 KiB in `Batch` mode. */
    ghost predicate Kept(fsync: FsyncMode) {
      && durable <= |recs|
      && (fsync == Always ==> durable == |recs|)
      && (fsync == Batch ==> FramedBytes(recs[durable..]) == pending < BATCH_BYTES)
    }
  }

  /** When an append is on disk on return: in `Always` mode at once, in `Batch` mode exactly when the
      frames since the last sync come to 262144 bytes, and then all of them; in `Never` mode it is
      not promised. A frame takes 29 bytes besides the key and the value. */
  lemma AppendSyncs(log: Log, fsync: FsyncMode, r: Record)
    ensures var after, size := log.Append(fsync, r), log.pending + |r.ik.userKey| + |r.value| + 29;
            && after.recs == log.recs + [r] && after.torn == log.torn
            && match fsync
               case Always => after.durable == |after.recs|
               case Batch => if size >= 262144 then after.durable == |after.recs| && after.pending == 0
                             else after.durable == log.durable && after.pending == size
               case Never => after.durable == log.durable
    ensures var after := log.Sync(fsync);
            && after.recs == log.recs && after.torn == log.torn
            && after.durable == if fsync == Never then log.durable else |log.recs|
  {
    RecordFields(r);
    hide RecordBytes;
  }

  lemma AppendKeeps(log: Log, fsync: FsyncMode, r: Record)
    requires log.Kept(fsync)
    ensures log.Append(fsync, r).Kept(fsync)
  {
    hide RecordBytes;
    var after := log.Append(fsync, r);
    if after.durable == log.durable {
      assert after.recs[log.durable..] == log.recs[log.durable..] + [r];
      var tail := after.recs[log.durable..];
      assert tail[..|tail| - 1] == log.recs[log.durable..];
    }
  }

  lemma SyncKeeps(log: Log, fsync: FsyncMode)
    requires log.Kept(fsync)
    ensures log.Sync(fsync).Kept(fsync)
  {
    assert log.recs[|log.recs|..] == [];
  }

  /** The bytes left of a frame that a crash tore: nothing in them is complete. */
  predicate Torn(hash: Hash, tail: bytes) {
    NextFrame(hash, tail, 0).End?
  }

  /** The bytes of the log file, `tail` being those of the torn frame. */
  ghost predicate FileHolds(hash: Hash, log: Log, tail: bytes, file: bytes) {
    match log.torn
    case None => file == LogBytes(hash, log.recs)
    case Some(b) =>
      && b <= |log.recs| && Torn(hash, tail)
      && file == LogBytes(hash, log.recs[..b]) + tail + LogBytes(hash, log.recs[b..])
  }

  /** Whatever number of bytes a crash leaves of the log file, if it leaves the synced ones, then
      recovery gives back a prefix of the records with every durable one: as long as nothing was
      appended behind torn bytes. */
  lemma CrashedLog(hash: Hash, log: Log, tail: bytes, file: bytes, n: nat)
    requires FileHolds(hash, log, tail, file) && log.Whole()
    requires log.durable <= |log.recs| && forall r :: r in log.recs ==> FitsRecord(r)
    requires |LogBytes(hash, log.recs[..log.durable])| <= n <= |file|
    ensures var c := CompleteRecords(log.recs, n);
            && log.durable <= c <= |log.recs|
            && Recovered(hash, file[..n]) == Ok(log.recs[..c])
  {
    hide *;
    var w := LogBytes(hash, log.recs);
    WholeFile(hash, log, tail, file);
    LogIs(hash, log.recs[..log.durable]);
    LogIs(hash, log.recs);
    EncodedPrefix(log.recs, log.durable);
    CompleteAtLeast(hash, Encoded(log.recs), log.durable, n);
    CompleteIs(log.recs, n);
    if n <= |w| {
      TruncatedLog(hash, log.recs, n);
      assert file[..n] == w[..n];
    } else {
      var rest := file[|w|..n];
      assert file[..n] == w + rest && file[|w|..][..|rest|] == rest;
      TornPrefix(hash, file[|w|..], |rest|);
      TornLog(hash, log.recs, rest);
      AllRecords(hash, log.recs, n);
      assert log.recs[..|log.recs|] == log.recs;
    }
  }

  /** A file in which nothing stands behind the torn bytes. */
  lemma WholeFile(hash: Hash, log: Log, tail: bytes, file: bytes)
    requires FileHolds(hash, log, tail, file) && log.Whole()
    ensures LogBytes(hash, log.recs) <= file && Torn(hash, file[|LogBytes(hash, log.recs)|..])
  {
    hide LogBytes;
    var w := LogBytes(hash, log.recs);
    if log.torn.Some? {
      assert log.recs[..|log.recs|] == log.recs && log.recs[|log.recs|..] == [];
      NoLogBytes(hash);
      assert file == w + tail && file[|w|..] == tail;
    } else {
      assert file[|w|..] == [];
    }
  }

  lemma NoLogBytes(hash: Hash)
    ensures LogBytes(hash, []) == []
  {
  }

  lemma TornPrefix(hash: Hash, tail: bytes, n: nat)
    requires Torn(hash, tail) && n <= |tail|
    ensures Torn(hash, tail[..n])
  {
    if n >= 8 {
      assert tail[..n][0..4] == tail[0..4];
    }
  }

  lemma AllRecords(hash: Hash, rs: seq<Record>, n: nat)
    requires |LogBytes(hash, rs)| <= n
    ensures CompleteRecords(rs, n) == |rs|
  {
    hide *;
    LogIs(hash, rs);
    CompleteIs(rs, n);
    EncodedPrefix(rs, |rs|);
    assert rs[..|rs|] == rs;
    CompleteAtLeast(hash, Encoded(rs), |rs|, n);
    EncodedLength(rs);
  }

  lemma EncodedLength(rs: seq<Record>)
    ensures |Encoded(rs)| == |rs|
  {
  }

  /** Torn bytes end recovery quietly. */
  lemma TornLog(hash: Hash, rs: seq<Record>, tail: bytes)
    requires Torn(hash, tail) && forall r :: r in rs ==> FitsRecord(r)
    ensures Recovered(hash, LogBytes(hash, rs) + tail) == Ok(rs)
  {
    hide *;
    EncodedFit(rs);
    LogIs(hash, rs);
    TornFrames(hash, Encoded(rs), tail);
    DecodesBack(rs);
    RecoveredIs(hash, LogBytes(hash, rs) + tail);
  }

  lemma TornFrames(hash: Hash, ps: seq<bytes>, tail: bytes)
    requires Torn(hash, tail) && FitPayloads(ps)
    ensures Payloads(hash, Frames(hash, ps) + tail, 0) == Ok(ps)
  {
    hide Frames, NextFrame, FitPayloads;
    var head := Frames(hash, ps);
    assert At(head + tail, 0, head);
    PayloadsAfter(hash, ps, head + tail, 0);
    NextShifts(hash, head, tail);
    OnlyPrefix(ps, Ok([]));
  }

  /** What stands behind `head` does not depend on it. */
  lemma NextShifts(hash: Hash, head: bytes, tail: bytes)
    ensures NextFrame(hash, head + tail, |head|).End? <==> Torn(hash, tail)
  {
    var i, buf := |head|, head + tail;
    if i + 8 <= |buf| {
      assert buf[i..i + 4] == tail[0..4] && buf[i + 4..i + 8] == tail[4..8];
    }
  }

  lemma EncodedFit(rs: seq<Record>)
    requires forall r :: r in rs ==> FitsRecord(r)
    ensures FitPayloads(Encoded(rs))
  {
    hide RecordBytes;
    forall p | p in Encoded(rs) ensures |p| < TWO32 {
      var i :| 0 <= i < |rs| && Encoded(rs)[i] == p;
      assert rs[i] in rs;
    }
  }

  lemma DecodesBack(rs: seq<Record>)
    requires forall r :: r in rs ==> FitsRecord(r)
    ensures DecodeRecords(Encoded(rs)) == Ok(rs)
  {
    hide FitsRecord, RecordBytes, DecodeRecords;
    assert forall i :: 0 <= i < |rs| ==> rs[i] in rs;
    DecodeEncoded(rs, Encoded(rs));
  }

  lemma RecoveredIs(hash: Hash, buf: bytes)
    ensures Recovered(hash, buf) == match Payloads(hash, buf, 0)
                                    case Corrupt => Corrupt
                                    case Ok(ps) => DecodeRecords(ps)
  {
  }

  // ---------------------------------------------------------------- appending behind torn bytes

  /** Records appended behind torn bytes are all recovered exactly when the torn bytes happen to
      repeat and nothing is read in what is then left over. */
  lemma KeptLog(hash: Hash, rs: seq<Record>, torn: bytes, more: seq<Record>)
    requires forall r :: r in rs + more ==> FitsRecord(r)
    ensures var buf := LogBytes(hash, rs) + torn + LogBytes(hash, more);
            Recovered(hash, buf) == Ok(rs + more) <==>
            && LogBytes(hash, more) <= torn + LogBytes(hash, more)
            && Payloads(hash, buf, |LogBytes(hash, rs)| + |LogBytes(hash, more)|) == Ok([])
  {
    hide *;
    var buf := LogBytes(hash, rs) + torn + LogBytes(hash, more);
    assert forall r :: r in rs || r in more ==> r in rs + more;
    EncodedFit(rs);
    EncodedFit(more);
    LogIs(hash, rs);
    LogIs(hash, more);
    KeptBehindTorn(hash, Encoded(rs), torn, Encoded(more));
    EncodedJoin(rs, more);
    DecodesBack(rs + more);
    RecoveredIs(hash, buf);
    if Recovered(hash, buf) == Ok(rs + more) { EncodedDecoded(Payloads(hash, buf, 0).value); }
  }

  lemma EncodedJoin(a: seq<Record>, b: seq<Record>)
    ensures Encoded(a + b) == Encoded(a) + Encoded(b)
  {
    hide RecordBytes;
  }

  /** Behind one to three torn bytes no appended records are ever all recovered: the magic number
      in a record does not repeat at that distance. */
  lemma ShortTornLosesSome(hash: Hash, rs: seq<Record>, torn: bytes, more: seq<Record>)
    requires (forall r :: r in rs + more ==> FitsRecord(r)) && more != [] && 1 <= |torn| < 4
    ensures Recovered(hash, LogBytes(hash, rs) + torn + LogBytes(hash, more)) != Ok(rs + more)
  {
    hide *;
    KeptLog(hash, rs, torn, more);
    MagicAt(hash, more);
    Repeats(LogBytes(hash, more), torn, 8);
  }

  lemma Repeats(b: bytes, torn: bytes, j: nat)
    requires j + |torn| < |b|
    ensures b <= torn + b ==> b[j + |torn|] == b[j]
  {
    assert (torn + b)[j + |torn|] == b[j];
  }

  lemma MagicAt(hash: Hash, rs: seq<Record>)
    requires rs != []
    ensures var b := LogBytes(hash, rs); |b| >= 12 && b[8] == 0x45 && b[9] == 0x44 && b[10] == 0x41 && b[11] == 0x4A
  {
    var r := rs[0];
    RecordFields(r);
    FirstFrame(hash, rs);
    assert RecordBytes(r)[0..4] == [0x45, 0x44, 0x41, 0x4A] by { MagicBytes(); }
    hide RecordBytes, LogBytes;
    var b := LogBytes(hash, rs);
    assert b[8..12] == RecordBytes(r)[0..4];
    assert b[8] == b[8..12][0] && b[9] == b[8..12][1] && b[10] == b[8..12][2] && b[11] == b[8..12][3];
  }

  lemma MagicBytes()
    ensures Le(MAGIC, 4) == [0x45, 0x44, 0x41, 0x4A]
  {
  }

  lemma FirstFrame(hash: Hash, rs: seq<Record>)
    requires rs != []
    ensures |RecordBytes(rs[0])| + 8 <= |LogBytes(hash, rs)|
    ensures LogBytes(hash, rs)[8..8 + |RecordBytes(rs[0])|] == RecordBytes(rs[0])
  {
    hide RecordBytes;
    var f := Frame(hash, RecordBytes(rs[0]));
    assert LogBytes(hash, rs) == f + Frames(hash, Encoded(rs)[1..]);
    assert f[8..] == RecordBytes(rs[0]);
    assert LogBytes(hash, rs)[8..|f|] == f[8..];
  }

  /** Not even one record of moderate size is: reopened behind one to three torn bytes, the log
      loses the next record, synced and acknowledged as it is, without an error. */
  lemma LostBehindTorn(hash: Hash, rs: seq<Record>, torn: bytes, r0: Record, r: Record)
    requires (forall q :: q in rs ==> FitsRecord(q)) && FitsRecord(r0)
    requires 1 <= |torn| < 4 && torn == Frame(hash, RecordBytes(r0))[..|torn|]
    requires |RecordBytes(r)| < Pow256(4 - |torn|)
    ensures Recovered(hash, LogBytes(hash, rs) + torn + LogBytes(hash, [r])) == Ok(rs)
  {
    RecordFields(r);
    assert Encoded([r]) == [RecordBytes(r)];
    hide *;
    FitsIs(r0);
    EncodedFit(rs);
    LogIs(hash, rs);
    LogIs(hash, [r]);
    ShortTornLoses(hash, Encoded(rs), torn, RecordBytes(r0), RecordBytes(r));
    DecodesBack(rs);
    RecoveredIs(hash, LogBytes(hash, rs) + torn + LogBytes(hash, [r]));
  }

  lemma FitsIs(r: Record)
    ensures FitsRecord(r) <==> |RecordBytes(r)| < TWO32 && r.ik.seqno < TWO64
  {
  }

  /** An input: a log reopened behind the first byte of a frame loses an empty write that was
      acknowledged in `Always` mode, and with it what that mode promises. */
  lemma LostWrite(hash: Hash)
    ensures var r := Record(InternalKey([], 1, Put), []);
            var torn, log := Frame(hash, RecordBytes(r))[..1], Log([], 0, 0, Some(0)).Append(Always, r);
            && FitsRecord(r) && log.Kept(Always) && log.durable == |log.recs| == 1
            && FileHolds(hash, log, torn, torn + LogBytes(hash, [r]))
            && Recovered(hash, torn + LogBytes(hash, [r])) == Ok([])
  {
    var r := Record(InternalKey([], 1, Put), []);
    RecordFields(r);
    assert |RecordBytes(r)| == 21 && FitsRecord(r);
    var torn, log := Frame(hash, RecordBytes(r))[..1], Log([], 0, 0, Some(0)).Append(Always, r);
    assert log.recs == [r] && log.recs[..0] == [] && log.recs[0..] == [r];
    hide LogBytes, RecordBytes, Frame, Recovered, DecodeRecords;
    NoLogBytes(hash);
    ThreeBytes();
    LostBehindTorn(hash, [], torn, r, r);
    assert [] + torn == torn;
  }

  lemma ThreeBytes()
    ensures 21 < Pow256(3)
  {
    assert Pow256(2) == 256 * Pow256(1);
  }

  lemma LogIs(hash: Hash, rs: seq<Record>)
    ensures LogBytes(hash, rs) == Frames(hash, Encoded(rs))
  {
  }

  lemma CompleteIs(rs: seq<Record>, n: nat)
    ensures CompleteRecords(rs, n) == Complete(Encoded(rs), n)
  {
  }

  lemma EncodedPrefix(rs: seq<Record>, d: nat)
    requires d <= |rs|
    ensures Encoded(rs[..d]) == Encoded(rs)[..d]
  {
  }

  // ---------------------------------------------------------------- the log as an object

  class Wal {
    const hash: Hash
    const fsync: FsyncMode
    var file: bytes
    var pending: nat

    /** The records in the file, how many of them are known to be on disk, and what is left of a
        torn frame among them. */
    ghost var recs: seq<Record>
    ghost var durable: nat
    ghost var torn: Option<nat>
    ghost var tail: bytes

    ghost function View(): Log
      reads this
    {
      Log(recs, durable, pending, torn)
    }

    ghost predicate Valid()
      reads this
    {
      FileHolds(hash, View(), tail, file) && View().Kept(fsync)
    }

    constructor Create(hash: Hash, fsync: FsyncMode)
      ensures Valid() && View() == Log([], 0, 0, None) && this.hash == hash && this.fsync == fsync
    {
      this.hash, this.fsync := hash, fsync;
      file, pending, recs, durable, torn, tail := [], 0, [], 0, None, [];
    }

    /** Reopen a log that was recovered; what survived of it is on disk. A torn frame at its end is
        not cut off. */
    constructor OpenAppend(hash: Hash, fsync: FsyncMode, existing: bytes, ghost rs: seq<Record>)
      requires Recovered(hash, existing) == Ok(rs)
      ensures Valid() && file == existing && this.hash == hash && this.fsync == fsync
      ensures View() == Log(rs, |rs|, 0, if existing == LogBytes(hash, rs) then None else Some(|rs|))
    {
      this.hash, this.fsync := hash, fsync;
      file, pending, recs, durable := existing, 0, rs, |rs|;
      torn := if existing == LogBytes(hash, rs) then None else Some(|rs|);
      tail := TailOf(hash, existing, rs);
      new;
      ReopenedHolds(hash, fsync, existing, rs);
    }

    /** In `Always` mode the record is on disk on return; in `Batch` mode fewer than 256 KiB of
        the log ever are not. */
    method Append(r: Record)
      requires Valid()
      modifies this
      ensures Valid() && View() == old(View()).Append(fsync, r)
      ensures file == old(file) + Frame(hash, RecordBytes(r))
    {
      hide RecordBytes, LogBytes, FramedBytes, Log.Kept, FileHolds;
      var rec := RecordBytes(r);
      FileGrows(hash, View(), tail, file, fsync, r);
      AppendKeeps(View(), fsync, r);
      file := file + Le(|rec|, 4) + Le(hash(rec), 4) + rec;
      pending := pending + |rec| + 8;
      recs := recs + [r];
      match fsync {
        case Always => durable := |recs|;
        case Batch => if pending >= BATCH_BYTES { durable, pending := |recs|, 0; }
        case Never =>
      }
      assert View() == old(View()).Append(fsync, r);
      assert file == old(file) + (Le(|rec|, 4) + Le(hash(rec), 4) + rec);
    }

    method Sync()
      requires Valid()
      modifies this`pending, this`durable
      ensures Valid() && View() == old(View()).Sync(fsync)
    {
      hide LogBytes, Log.Kept, Torn;
      SyncKeeps(View(), fsync);
      if fsync != Never {
        durable := |recs|;
        pending := 0;
      }
    }
  }

  lemma LogGrows(hash: Hash, rs: seq<Record>, r: Record)
    ensures LogBytes(hash, rs + [r]) == LogBytes(hash, rs) + Frame(hash, RecordBytes(r))
  {
    assert Encoded(rs + [r]) == Encoded(rs) + [RecordBytes(r)];
    FramesSplit(hash, Encoded(rs), [RecordBytes(r)]);
  }

  lemma FileGrows(hash: Hash, log: Log, tail: bytes, file: bytes, fsync: FsyncMode, r: Record)
    requires FileHolds(hash, log, tail, file)
    ensures FileHolds(hash, log.Append(fsync, r), tail, file + Frame(hash, RecordBytes(r)))
  {
    hide LogBytes, RecordBytes, Frame, Torn;
    match log.torn
    case None => LogGrows(hash, log.recs, r);
    case Some(b) =>
      LogGrows(hash, log.recs[b..], r);
      assert (log.recs + [r])[..b] == log.recs[..b] && (log.recs + [r])[b..] == log.recs[b..] + [r];
  }

  /** The bytes recovery did not accept. */
  ghost function TailOf(hash: Hash, file: bytes, rs: seq<Record>): bytes
    requires Recovered(hash, file) == Ok(rs)
  {
    RecoveredIsPrefix(hash, file);
    file[|LogBytes(hash, rs)|..]
  }

  /** What recovery accepts of any file is whole frames and, behind them, nothing complete. */
  lemma ReopenedHolds(hash: Hash, fsync: FsyncMode, file: bytes, rs: seq<Record>)
    requires Recovered(hash, file) == Ok(rs)
    ensures FileHolds(hash, Log(rs, |rs|, 0, if file == LogBytes(hash, rs) then None else Some(|rs|)),
                      TailOf(hash, file, rs), file)
    ensures Log(rs, |rs|, 0, if file == LogBytes(hash, rs) then None else Some(|rs|)).Kept(fsync)
  {
    assert rs[|rs|..] == [];
    hide Recovered, LogBytes, NextFrame;
    var w, tail := LogBytes(hash, rs), TailOf(hash, file, rs);
    RecoveredIsPrefix(hash, file);
    assert file == w + tail;
    RestTorn(hash, file, rs);
    NextShifts(hash, w, tail);
    NoLogBytes(hash);
    assert rs[..|rs|] == rs;
  }

  lemma RestTorn(hash: Hash, file: bytes, rs: seq<Record>)
    requires Recovered(hash, file) == Ok(rs)
    ensures NextFrame(hash, file, |LogBytes(hash, rs)|).End?
  {
    hide *;
    var ps := Encoded(rs);
    RecoveredIs(hash, file);
    EncodedDecoded(Payloads(hash, file, 0).value);
    LogIs(hash, rs);
    RecoveredIsPrefix(hash, file);
    AcceptedFit(hash, file, 0);
    PrefixStands(Frames(hash, ps), file);
    PayloadsAfter(hash, ps, file, 0);
    OnlyPrefix(ps, Payloads(hash, file, |Frames(hash, ps)|));
    NothingRead(hash, file, |Frames(hash, ps)|);
  }

  lemma PrefixStands(a: bytes, b: bytes)
    requires a <= b
    ensures At(b, 0, a)
  {
  }
}
