/** Internal keys (src/key.rs): a user key with the sequence number and kind of one write. */
module Keys {
  import opened ByteStrings

  datatype ValueKind = Delete | Put

  datatype InternalKey = InternalKey(userKey: bytes, seqno: nat, kind: ValueKind)

  function KindByte(k: ValueKind): byte {
    match k case Delete => 0 case Put => 1
  }

  function KindFromByte(b: nat): Option<ValueKind> {
    if b == 0 then Some(Delete) else if b == 1 then Some(Put) else None
  }

  function CmpNat(a: nat, b: nat): Ordering {
    if a < b then Less else if a == b then Equal else Greater
  }

  /** User key ascending, then sequence number descending, then kind ascending. */
  function Cmp(a: InternalKey, b: InternalKey): Ordering {
    match CmpBytes(a.userKey, b.userKey)
    case Equal =>
      (match CmpNat(b.seqno, a.seqno)
       case Equal => CmpNat(KindByte(a.kind), KindByte(b.kind))
       case o => o)
    case o => o
  }

  predicate KeyLt(a: InternalKey, b: InternalKey) {
    Cmp(a, b) == Less
  }

  /** `seq << 8 | kind` in 64 bits: the shift drops the top byte of the sequence number. */
  function Tag(k: InternalKey): nat {
    (k.seqno * 256) % TWO64 + KindByte(k.kind)
  }

  function Encode(k: InternalKey): (b: bytes)
    ensures |b| == |k.userKey| + 8
  {
    k.userKey + Be(Tag(k), 8)
  }

  function Decode(b: bytes): Result<InternalKey> {
    if |b| < 8 then Corrupt
    else
      var tag := FromBe(b[|b| - 8..]);
      match KindFromByte(tag % 256)
      case None => Corrupt
      case Some(kind) => Ok(InternalKey(b[..|b| - 8], tag / 256, kind))
  }

  function SaturatingSub(a: nat, b: nat): nat {
    if a < b then 0 else a - b
  }

  function CompareEncoded(a: bytes, b: bytes): Ordering {
    var aKey := a[..SaturatingSub(|a|, 8)];
    var bKey := b[..SaturatingSub(|b|, 8)];
    match CmpBytes(aKey, bKey)
    case Equal =>
      if |a| >= 8 && |b| >= 8 then
        var aTag := FromBe(a[|a| - 8..]);
        var bTag := FromBe(b[|b| - 8..]);
        (match CmpNat(bTag / 256, aTag / 256)
         case Equal => CmpNat(aTag % 256, bTag % 256)
         case o => o)
      else Equal
    case o => o
  }

  // ---------------------------------------------------------------- the order is total

  lemma CmpEqual(a: InternalKey, b: InternalKey)
    ensures Cmp(a, b) == Equal <==> a == b
  {
  }

  lemma CmpFlip(a: InternalKey, b: InternalKey)
    ensures Cmp(a, b) == Less <==> Cmp(b, a) == Greater
  {
    LtTotal(a.userKey, b.userKey);
    if Lt(a.userKey, b.userKey) { LtAsym(a.userKey, b.userKey); }
    if Lt(b.userKey, a.userKey) { LtAsym(b.userKey, a.userKey); }
  }

  lemma KeyLtTrans(a: InternalKey, b: InternalKey, c: InternalKey)
    requires KeyLt(a, b) && KeyLt(b, c)
    ensures KeyLt(a, c)
  {
    if Lt(a.userKey, b.userKey) && Lt(b.userKey, c.userKey) {
      LtTrans(a.userKey, b.userKey, c.userKey);
      LtAsym(a.userKey, c.userKey);
    }
  }

  lemma KeyOrder()
    ensures forall a: InternalKey, b: InternalKey {:trigger KeyLt(a, b)} :: KeyLt(a, b) ==> a != b && !KeyLt(b, a)
    ensures forall a: InternalKey, b: InternalKey {:trigger KeyLt(a, b)} :: a == b || KeyLt(a, b) || KeyLt(b, a)
    ensures forall a: InternalKey, b: InternalKey, c: InternalKey {:trigger KeyLt(a, b), KeyLt(b, c)} ::
              KeyLt(a, b) && KeyLt(b, c) ==> KeyLt(a, c)
  {
    forall a: InternalKey, b: InternalKey
      ensures KeyLt(a, b) ==> a != b && !KeyLt(b, a) { CmpFlip(a, b); CmpEqual(a, b); }
    forall a: InternalKey, b: InternalKey
      ensures a == b || KeyLt(a, b) || KeyLt(b, a) { CmpFlip(a, b); CmpEqual(a, b); }
    forall a: InternalKey, b: InternalKey, c: InternalKey | KeyLt(a, b) && KeyLt(b, c)
      ensures KeyLt(a, c) { KeyLtTrans(a, b, c); }
  }

  // ---------------------------------------------------------------- the encoding

  lemma TagBytes(k: InternalKey)
    ensures Tag(k) < TWO64 && FromBe(Encode(k)[|k.userKey|..]) == Tag(k)
    ensures Encode(k)[..|k.userKey|] == k.userKey
    ensures Tag(k) / 256 == k.seqno % TWO56 && Tag(k) % 256 == KindByte(k.kind)
  {
    Pow256Values();
    assert (k.seqno * 256) % TWO64 == (k.seqno % TWO56) * 256 by {
      assert k.seqno == (k.seqno / TWO56) * TWO56 + k.seqno % TWO56;
      assert k.seqno * 256 == (k.seqno / TWO56) * TWO64 + (k.seqno % TWO56) * 256;
    }
    BeRoundTrip(Tag(k), 8);
    assert Encode(k)[|k.userKey|..] == Be(Tag(k), 8);
  }

  /** The encoding loses nothing exactly when the sequence number fits in 56 bits:
      `encode` shifts it left by eight without checking. */
  lemma EncodeRoundTrip(k: InternalKey)
    ensures Decode(Encode(k)) == Ok(k) <==> k.seqno < TWO56
    ensures Decode(Encode(k)) == Ok(k.(seqno := k.seqno % TWO56))
  {
    hide Encode, Tag, FromBe;
    TagBytes(k);
  }

  /** The key an encoding stands for: only the low 56 bits of the sequence number fit the tag. */
  function Wrapped(k: InternalKey): InternalKey {
    k.(seqno := k.seqno % TWO56)
  }

  /** Comparing encoded keys is comparing the keys with their sequence numbers cut to 56 bits. */
  lemma EncodedOrder(a: InternalKey, b: InternalKey)
    ensures CompareEncoded(Encode(a), Encode(b)) == Cmp(Wrapped(a), Wrapped(b))
  {
    hide Encode, Tag, FromBe, CmpBytes;
    TagBytes(a);
    TagBytes(b);
  }

  /** So it is comparing the keys below 2^56. */
  lemma EncodedOrderBelow(a: InternalKey, b: InternalKey)
    requires a.seqno < TWO56 && b.seqno < TWO56
    ensures CompareEncoded(Encode(a), Encode(b)) == Cmp(a, b)
  {
    hide Encode, CompareEncoded, Cmp;
    EncodedOrder(a, b);
    assert Wrapped(a) == a && Wrapped(b) == b;
  }

  /** And exactly when it is: when the user keys differ, the cut numbers compare as the numbers do,
      or the cut numbers are equal and the kinds happen to decide as the numbers do. */
  lemma EncodedOrderHolds(a: InternalKey, b: InternalKey)
    ensures CompareEncoded(Encode(a), Encode(b)) == Cmp(a, b) <==>
            || a.userKey != b.userKey
            || CmpNat(b.seqno % TWO56, a.seqno % TWO56) == CmpNat(b.seqno, a.seqno)
            || (a.seqno % TWO56 == b.seqno % TWO56 && CmpNat(KindByte(a.kind), KindByte(b.kind)) == CmpNat(b.seqno, a.seqno))
  {
    hide Encode, CompareEncoded, Lt;
    EncodedOrder(a, b);
  }

  /** Whatever `decode` accepts it read losslessly: re-encoding gives the same bytes. */
  lemma DecodeThenEncode(b: bytes)
    requires Decode(b).Ok?
    ensures Encode(Decode(b).value) == b && Decode(b).value.seqno < TWO56
  {
    var k := Decode(b).value;
    var tail := b[|b| - 8..];
    FromBeBound(tail);
    Pow256Values();
    TagBytes(k);
    BeInjective(Be(Tag(k), 8), tail);
    assert b == b[..|b| - 8] + tail;
  }

  lemma {:induction false} BeInjective(a: bytes, b: bytes)
    requires |a| == |b| && FromBe(a) == FromBe(b)
    ensures a == b
  {
    if |a| > 0 {
      BeInjective(a[..|a| - 1], b[..|b| - 1]);
      assert a == a[..|a| - 1] + [a[|a| - 1]] && b == b[..|b| - 1] + [b[|b| - 1]];
    }
  }

  /** Past 56 bits the encoding even reorders: an older write sorts before a newer one. */
  lemma EncodedOrderBreaks()
    ensures exists a: InternalKey, b: InternalKey ::
              Cmp(a, b) == Less && CompareEncoded(Encode(a), Encode(b)) == Greater
  {
    var a := InternalKey([], TWO56, Put);
    var b := InternalKey([], 1, Put);
    EncodedOrder(a, b);
    hide Encode, CompareEncoded;
    assert Cmp(a, b) == Less && CompareEncoded(Encode(a), Encode(b)) == Greater;
  }
}
