/** The manifest: a log of edits to the set of live table files (src/manifest.rs). */
module ManifestLog {
  import opened ByteStrings
  import opened Bloom
  import opened Framing

  datatype FileMeta = FileMeta(num: nat, level: nat, smallest: bytes, largest: bytes, size: nat)

  datatype Edit =
    | AddFile(meta: FileMeta)
    | DeleteFile(level: nat, num: nat)
    | SetNextFileNum(n: nat)
    | SetLastSeq(s: nat)

  /** What replaying a manifest yields. */
  datatype Catalog = Catalog(files: seq<FileMeta>, nextFileNum: nat, lastSeq: nat)

  const EmptyCatalog := Catalog([], 0, 0)

  /** `retain` of every entry but the deleted one. */
  function Retain(files: seq<FileMeta>, level: nat, num: nat): seq<FileMeta> {
    if files == [] then []
    else
      (if files[0].level == level && files[0].num == num then [] else [files[0]])
      + Retain(files[1..], level, num)
  }

  function Applied(c: Catalog, e: Edit): Catalog {
    match e
    case AddFile(m) => c.(files := c.files + [m])
    case DeleteFile(level, num) => c.(files := Retain(c.files, level, num))
    case SetNextFileNum(n) => c.(nextFileNum := n)
    case SetLastSeq(s) => c.(lastSeq := s)
  }

  function ApplyAll(c: Catalog, es: seq<Edit>): Catalog {
    if es == [] then c else Applied(ApplyAll(c, es[..|es| - 1]), es[|es| - 1])
  }

  function Replay(es: seq<Edit>): Catalog {
    ApplyAll(EmptyCatalog, es)
  }

  lemma {:induction false} ApplySplit(c: Catalog, a: seq<Edit>, b: seq<Edit>)
    ensures ApplyAll(c, a + b) == ApplyAll(ApplyAll(c, a), b)
  {
    if b == [] {
      assert a + b == a;
    } else {
      ApplySplit(c, a, b[..|b| - 1]);
      assert (a + b)[..|a + b| - 1] == a + b[..|b| - 1];
    }
  }

  // ---------------------------------------------------------------- codec

  function EditBytes(e: Edit): bytes {
    match e
    case AddFile(m) =>
      [1] + Le(m.num, 8) + (Le(m.level, 4) + Le(|m.smallest|, 4))
      + (m.smallest + Le(|m.largest|, 4) + (m.largest + Le(m.size, 8)))
    case DeleteFile(level, num) => [2] + Le(level, 4) + Le(num, 8)
    case SetNextFileNum(n) => [3] + Le(n, 8)
    case SetLastSeq(s) => [4] + Le(s, 8)
  }

  /** How reading a manifest ends: with a value, with the corruption error, or with a panic, because
      `decode_edit` slices unchecked. */
  datatype Loaded<+T> = Loaded(value: T) | Refused | Panics

  function DecodeEdit(b: bytes): Loaded<Edit> {
    if b == [] then Refused
    else if b[0] == 1 then DecodeAdd(b)
    else if b[0] == 2 then if |b| >= 13 then Loaded(DeleteFile(FromLe(b[1..5]), FromLe(b[5..13]))) else Panics
    else if b[0] == 3 then if |b| >= 9 then Loaded(SetNextFileNum(FromLe(b[1..9]))) else Panics
    else if b[0] == 4 then if |b| >= 9 then Loaded(SetLastSeq(FromLe(b[1..9]))) else Panics
    else Refused
  }

  function DecodeAdd(b: bytes): Loaded<Edit> {
    if |b| < 17 then Panics
    else
      var sl := FromLe(b[13..17]);
      var o := 17 + sl;
      if o + 4 > |b| then Panics
      else
        var ll := FromLe(b[o..o + 4]);
        var p := o + 4 + ll;
        if p + 8 > |b| then Panics
        else Loaded(AddFile(FileMeta(FromLe(b[1..9]), FromLe(b[9..13]), b[17..o], b[o + 4..p], FromLe(b[p..p + 8]))))
  }

  ghost predicate FitsEdit(e: Edit) {
    && |EditBytes(e)| < TWO32
    && match e
       case AddFile(m) => m.num < TWO64 && m.level < TWO32 && m.size < TWO64
       case DeleteFile(level, num) => level < TWO32 && num < TWO64
       case SetNextFileNum(n) => n < TWO64
       case SetLastSeq(s) => s < TWO64
  }

  lemma AddFields(m: FileMeta)
    ensures var b, o := EditBytes(AddFile(m)), 17 + |m.smallest|;
            var p := o + 4 + |m.largest|;
            && |b| == p + 8 && b[0] == 1
            && b[1..9] == Le(m.num, 8) && b[9..13] == Le(m.level, 4)
            && b[13..17] == Le(|m.smallest|, 4) && b[17..o] == m.smallest
            && b[o..o + 4] == Le(|m.largest|, 4) && b[o + 4..p] == m.largest && b[p..p + 8] == Le(m.size, 8)
  {
    hide Le;
    var head := [1] + Le(m.num, 8) + (Le(m.level, 4) + Le(|m.smallest|, 4));
    var rest := m.smallest + Le(|m.largest|, 4) + (m.largest + Le(m.size, 8));
    var b := EditBytes(AddFile(m));
    assert At(b, 0, head + rest);
    AtSplit(b, 0, head, rest);
    AtFields(b, 0, [1], Le(m.num, 8), Le(m.level, 4), Le(|m.smallest|, 4));
    AtFields(b, 17, m.smallest, Le(|m.largest|, 4), m.largest, Le(m.size, 8));
  }

  lemma EditRoundTrip(e: Edit)
    requires FitsEdit(e)
    ensures DecodeEdit(EditBytes(e)) == Loaded(e)
  {
    var b := EditBytes(e);
    match e
    case AddFile(m) =>
      AddFields(m);
      hide Le, FromLe;
      Le8(m.num);
      Le4(m.level);
      Le4(|m.smallest|);
      Le4(|m.largest|);
      Le8(m.size);
    case DeleteFile(level, num) =>
      hide Le, FromLe;
      Le4(level);
      Le8(num);
      assert b[1..5] == Le(level, 4) && b[5..13] == Le(num, 8);
    case SetNextFileNum(n) =>
      hide Le, FromLe;
      Le8(n);
      assert b[1..9] == Le(n, 8);
    case SetLastSeq(s) =>
      hide Le, FromLe;
      Le8(s);
      assert b[1..9] == Le(s, 8);
  }

  // ---------------------------------------------------------------- what the decoder accepts

  /** `decode_edit` reads what it returns off the front of the payload, and ignores what follows. */
  lemma DecodedEdit(b: bytes)
    requires DecodeEdit(b).Loaded?
    ensures EditBytes(DecodeEdit(b).value) <= b
  {
    if b[0] == 1 {
      DecodedAdd(b);
    } else if b[0] == 2 {
      LeOfFromLe(b[1..5]);
      LeOfFromLe(b[5..13]);
      assert b[..13] == [b[0]] + b[1..5] + b[5..13];
    } else {
      LeOfFromLe(b[1..9]);
      assert b[..9] == [b[0]] + b[1..9];
    }
  }

  lemma DecodedAdd(b: bytes)
    requires b != [] && b[0] == 1 && DecodeAdd(b).Loaded?
    ensures EditBytes(DecodeAdd(b).value) <= b
  {
    hide *;
    AddRead(b);
    var m := DecodeAdd(b).value.meta;
    var o := 17 + |m.smallest|;
    AddPieces(b, o, o + 4 + |m.largest|);
    AddBytes(m);
  }

  lemma AddBytes(m: FileMeta)
    ensures EditBytes(AddFile(m)) == [1] + Le(m.num, 8) + (Le(m.level, 4) + Le(|m.smallest|, 4))
                                     + (m.smallest + Le(|m.largest|, 4) + (m.largest + Le(m.size, 8)))
  {
    hide Le;
  }

  /** What stands at the offsets it reads. */
  lemma AddRead(b: bytes)
    requires DecodeAdd(b).Loaded?
    ensures DecodeAdd(b).value.AddFile?
    ensures var m := DecodeAdd(b).value.meta;
            var o := 17 + |m.smallest|;
            var p := o + 4 + |m.largest|;
            && p + 8 <= |b|
            && b[1..9] == Le(m.num, 8) && b[9..13] == Le(m.level, 4) && b[13..17] == Le(|m.smallest|, 4)
            && b[17..o] == m.smallest && b[o..o + 4] == Le(|m.largest|, 4) && b[o + 4..p] == m.largest
            && b[p..p + 8] == Le(m.size, 8)
  {
    var o := 17 + FromLe(b[13..17]);
    var p := o + 4 + FromLe(b[o..o + 4]);
    LeOfFromLe(b[1..9]);
    LeOfFromLe(b[9..13]);
    LeOfFromLe(b[13..17]);
    LeOfFromLe(b[o..o + 4]);
    LeOfFromLe(b[p..p + 8]);
    hide Le, FromLe;
  }

  lemma AddPieces(b: bytes, o: nat, p: nat)
    requires 17 <= o && o + 4 <= p && p + 8 <= |b|
    ensures [b[0]] + b[1..9] + (b[9..13] + b[13..17]) + (b[17..o] + b[o..o + 4] + (b[o + 4..p] + b[p..p + 8]))
        == b[..p + 8]
  {
  }

  /** An encoded edit is found whatever follows it. */
  lemma FrontDecodes(b: bytes, e: Edit)
    requires FitsEdit(e) && EditBytes(e) <= b
    ensures DecodeEdit(b) == Loaded(e)
  {
    hide *;
    var c := EditBytes(e);
    EditRoundTrip(e);
    Tagged(c);
    Tagged(b);
    if c[0] == 1 {
      FrontAdd(b, c);
    } else {
      FrontOther(b, c);
    }
  }

  lemma Tagged(b: bytes)
    ensures DecodeEdit(b).Loaded? ==> b != [] && 1 <= b[0] <= 4
    ensures b != [] && b[0] == 1 ==> DecodeEdit(b) == DecodeAdd(b)
  {
    hide DecodeAdd;
  }

  lemma FrontSlice(b: bytes, c: bytes, i: nat, j: nat)
    requires c <= b && i <= j <= |c|
    ensures b[i..j] == c[i..j] && (i < |c| ==> b[i] == c[i])
  {
    assert c == b[..|c|];
  }

  lemma FrontOther(b: bytes, c: bytes)
    requires c <= b && DecodeEdit(c).Loaded? && c[0] != 1
    ensures DecodeEdit(b) == DecodeEdit(c)
  {
    hide FromLe;
    FrontSlice(b, c, 0, 0);
    if c[0] == 2 {
      FrontSlice(b, c, 1, 5);
      FrontSlice(b, c, 5, 13);
    } else {
      FrontSlice(b, c, 1, 9);
    }
  }

  lemma FrontAdd(b: bytes, c: bytes)
    requires c <= b && DecodeAdd(c).Loaded? && c[0] == 1
    ensures DecodeAdd(b) == DecodeAdd(c) && b[0] == 1
  {
    hide FromLe;
    var o := 17 + FromLe(c[13..17]);
    var p := o + 4 + FromLe(c[o..o + 4]);
    FrontSlice(b, c, 0, 0);
    FrontSlice(b, c, 1, 9);
    FrontSlice(b, c, 9, 13);
    FrontSlice(b, c, 13, 17);
    FrontSlice(b, c, 17, o);
    FrontSlice(b, c, o, o + 4);
    FrontSlice(b, c, o + 4, p);
    FrontSlice(b, c, p, p + 8);
  }

  lemma LoadedFits(b: bytes)
    requires DecodeEdit(b).Loaded? && |b| < TWO32
    ensures FitsEdit(DecodeEdit(b).value)
  {
    DecodedEdit(b);
    Pow256Values();
    hide EditBytes;
    if b[0] == 1 {
      FromLeBound(b[1..9]);
      FromLeBound(b[9..13]);
      var o := 17 + FromLe(b[13..17]);
      var p := o + 4 + FromLe(b[o..o + 4]);
      FromLeBound(b[p..p + 8]);
    } else if b[0] == 2 {
      FromLeBound(b[1..5]);
      FromLeBound(b[5..13]);
    } else {
      FromLeBound(b[1..9]);
    }
  }

  /** Exactly when a payload makes it panic: a known tag and no encoded edit at the front. */
  lemma DecodePanics(b: bytes)
    requires |b| < TWO32
    ensures DecodeEdit(b).Panics? <==>
            b != [] && 1 <= b[0] <= 4 && forall e :: FitsEdit(e) ==> !(EditBytes(e) <= b)
  {
    hide EditBytes, FitsEdit, DecodeAdd;
    if e :| FitsEdit(e) && EditBytes(e) <= b { FrontDecodes(b, e); }
    if DecodeEdit(b).Loaded? {
      DecodedEdit(b);
      LoadedFits(b);
    } else if DecodeEdit(b).Refused? {
      AddNeverRefused(b);
    }
  }

  lemma AddNeverRefused(b: bytes)
    ensures !DecodeAdd(b).Refused?
  {
  }

  // ---------------------------------------------------------------- the file

  function EncodedEdits(es: seq<Edit>): (ps: seq<bytes>)
    ensures |ps| == |es| && forall i :: 0 <= i < |es| ==> ps[i] == EditBytes(es[i])
  {
    seq(|es|, i requires 0 <= i < |es| => EditBytes(es[i]))
  }

  /** The manifest file after logging `es`. */
  function ManifestBytes(hash: Hash, es: seq<Edit>): bytes {
    Frames(hash, EncodedEdits(es))
  }

  /** Decode and apply payloads in order. */
  function ApplyPayloads(c: Catalog, ps: seq<bytes>): Loaded<Catalog>
    decreases |ps|
  {
    if ps == [] then Loaded(c)
    else
      match DecodeEdit(ps[0])
      case Refused => Refused
      case Panics => Panics
      case Loaded(e) => ApplyPayloads(Applied(c, e), ps[1..])
  }

  /** Reading on from offset `i` with `c` read so far. Each edit is applied before the next frame is
      looked at. */
  function LoadFrom(hash: Hash, buf: bytes, i: nat, c: Catalog): Loaded<Catalog>
    decreases |buf| - i
  {
    match NextFrame(hash, buf, i)
    case End => Loaded(c)
    case BadChecksum => Refused
    case Found(rec, next) =>
      match DecodeEdit(rec)
      case Refused => Refused
      case Panics => Panics
      case Loaded(e) => LoadFrom(hash, buf, next, Applied(c, e))
  }

  /** What `Manifest::recover` returns for a file. */
  function RecoveredCatalog(hash: Hash, buf: bytes): Loaded<Catalog> {
    LoadFrom(hash, buf, 0, EmptyCatalog)
  }

  /** Where all checksums hold it is decoding and applying the payloads. */
  lemma {:induction false} LoadPayloads(hash: Hash, buf: bytes, i: nat, c: Catalog)
    requires Payloads(hash, buf, i).Ok?
    ensures LoadFrom(hash, buf, i, c) == ApplyPayloads(c, Payloads(hash, buf, i).value)
    decreases |buf| - i
  {
    hide DecodeEdit, Applied, FromLe;
    match NextFrame(hash, buf, i)
    case Found(rec, next) =>
      var rest := Payloads(hash, buf, next).value;
      assert ([rec] + rest)[0] == rec && ([rec] + rest)[1..] == rest;
      if DecodeEdit(rec).Loaded? { LoadPayloads(hash, buf, next, Applied(c, DecodeEdit(rec).value)); }
    case _ =>
  }

  lemma {:induction false} ApplyEncoded(c: Catalog, es: seq<Edit>, ps: seq<bytes>)
    requires |ps| == |es| && forall i :: 0 <= i < |es| ==> FitsEdit(es[i]) && ps[i] == EditBytes(es[i])
    ensures ApplyPayloads(c, ps) == Loaded(ApplyAll(c, es))
    decreases ps
  {
    if ps != [] {
      hide EditBytes, DecodeEdit, FitsEdit, Applied;
      EditRoundTrip(es[0]);
      ApplyEncoded(Applied(c, es[0]), es[1..], ps[1..]);
      ApplySplit(c, [es[0]], es[1..]);
      assert [es[0]] + es[1..] == es;
      assert ApplyAll(c, [es[0]]) == Applied(c, es[0]) by { assert [es[0]][..0] == []; }
    }
  }

  /** Any byte-prefix of a manifest recovers to the replay of its complete edits. */
  lemma TruncatedManifest(hash: Hash, es: seq<Edit>, n: nat)
    requires forall e :: e in es ==> FitsEdit(e)
    requires n <= |ManifestBytes(hash, es)|
    ensures RecoveredCatalog(hash, ManifestBytes(hash, es)[..n]) == Loaded(Replay(es[..Complete(EncodedEdits(es), n)]))
  {
    hide Payloads, Complete, EditBytes, ApplyPayloads, Frames, FitsEdit, ApplyAll, LoadFrom;
    var ps, buf := EncodedEdits(es), ManifestBytes(hash, es)[..n];
    assert buf[0..] == buf;
    assert FitPayloads(ps) by {
      forall p | p in ps ensures |p| < TWO32 {
        var i :| 0 <= i < |ps| && ps[i] == p;
        assert es[i] in es;
        EditFits(es[i]);
      }
    }
    PrefixRecovers(hash, ps, buf, 0);
    var c := Complete(ps, n);
    LoadPayloads(hash, buf, 0, EmptyCatalog);
    ApplyEncoded(EmptyCatalog, es[..c], ps[..c]);
  }

  lemma EditFits(e: Edit)
    requires FitsEdit(e)
    ensures |EditBytes(e)| < TWO32
  {
  }

  /** A whole manifest recovers to the replay of all its edits. */
  lemma WholeManifest(hash: Hash, es: seq<Edit>)
    requires forall e :: e in es ==> FitsEdit(e)
    ensures RecoveredCatalog(hash, ManifestBytes(hash, es)) == Loaded(Replay(es))
  {
    hide Payloads, Complete, EditBytes, ApplyPayloads, Frames, FitsEdit, ApplyAll, LoadFrom;
    var buf := ManifestBytes(hash, es);
    TruncatedManifest(hash, es, |buf|);
    AllComplete(hash, EncodedEdits(es));
    assert buf[..|buf|] == buf && es[..|es|] == es;
  }

  // ---------------------------------------------------------------- the manifest as objects

  class RecoveredState {
    var files: seq<FileMeta>
    var nextFileNum: nat
    var lastSeq: nat

    constructor ()
      ensures View() == EmptyCatalog
    {
      files, nextFileNum, lastSeq := [], 0, 0;
    }

    function View(): Catalog
      reads this
    {
      Catalog(files, nextFileNum, lastSeq)
    }

    method ApplyEdit(e: Edit)
      modifies this
      ensures View() == Applied(old(View()), e)
    {
      match e
      case AddFile(m) => files := files + [m];
      case DeleteFile(level, num) =>
        var kept: seq<FileMeta> := [];
        for i := 0 to |files|
          invariant files == old(files)
          invariant Retain(files, level, num) == kept + Retain(files[i..], level, num)
        {
          if !(files[i].level == level && files[i].num == num) { kept := kept + [files[i]]; }
          assert files[i..][1..] == files[i + 1..];
        }
        files := kept;
      case SetNextFileNum(n) => nextFileNum := n;
      case SetLastSeq(s) => lastSeq := s;
    }
  }

  /** `Manifest::recover`; where the program panics the method says so. */
  method Recover(hash: Hash, file: Option<bytes>) returns (r: Loaded<Catalog>)
    ensures r == match file case None => Loaded(EmptyCatalog) case Some(buf) => RecoveredCatalog(hash, buf)
  {
    hide DecodeEdit, Applied;
    if file.None? { return Loaded(EmptyCatalog); }
    var buf := file.value;
    var state := new RecoveredState();
    var i := 0;
    while i + 8 <= |buf|
      invariant i <= |buf|
      invariant RecoveredCatalog(hash, buf) == LoadFrom(hash, buf, i, state.View())
    {
      var len := FromLe(buf[i..i + 4]);
      var crc := FromLe(buf[i + 4..i + 8]);
      if i + 8 + len > |buf| { break; }
      var rec := buf[i + 8..i + 8 + len];
      if hash(rec) != crc { return Refused; }
      i := i + 8 + len;
      match DecodeEdit(rec) {
        case Refused => return Refused;
        case Panics => return Panics;
        case Loaded(e) => state.ApplyEdit(e);
      }
    }
    return Loaded(state.View());
  }

  class Manifest {
    const hash: Hash
    var file: bytes

    /** The edits logged since the file was created. */
    ghost var edits: seq<Edit>

    ghost predicate Valid()
      reads this
    {
      file == ManifestBytes(hash, edits)
    }

    constructor Create(hash: Hash)
      ensures Valid() && edits == [] && file == [] && this.hash == hash
    {
      this.hash := hash;
      file, edits := [], [];
    }

    constructor Open(hash: Hash, existing: bytes, ghost es: seq<Edit>)
      ensures edits == es && file == existing && this.hash == hash
      ensures existing == ManifestBytes(hash, es) ==> Valid()
    {
      this.hash := hash;
      file, edits := existing, es;
    }

    /** Append one frame per edit; the call is taken as atomic with its sync. */
    method Log(es: seq<Edit>)
      requires Valid()
      modifies this
      ensures Valid() && edits == old(edits) + es
    {
      hide EditBytes, Frame, ManifestBytes;
      for i := 0 to |es|
        invariant Valid() && edits == old(edits) + es[..i]
      {
        ManifestGrows(hash, edits, es[i]);
        file := file + Frame(hash, EditBytes(es[i]));
        edits := edits + [es[i]];
      }
    }
  }

  lemma ManifestGrows(hash: Hash, es: seq<Edit>, e: Edit)
    ensures ManifestBytes(hash, es + [e]) == ManifestBytes(hash, es) + Frame(hash, EditBytes(e))
  {
    hide EditBytes;
    assert EncodedEdits(es + [e]) == EncodedEdits(es) + [EditBytes(e)];
    FramesSplit(hash, EncodedEdits(es), [EditBytes(e)]);
  }
}
