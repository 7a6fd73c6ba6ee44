/** Byte strings: lexicographic order and the fixed-width integer codecs
    (`to_le_bytes`, `to_be_bytes` and their inverses) every file format is built from. */
module ByteStrings {

  type byte = b: int | 0 <= b < 256
  type bytes = seq<byte>

  const TWO32 := 0x1_0000_0000
  const TWO56 := 0x100_0000_0000_0000
  const TWO64 := 0x1_0000_0000_0000_0000

  datatype Option<+T> = None | Some(value: T)

  /** Every error the engine reports about stored bytes is `Error::Corruption`. */
  datatype Result<+T> = Ok(value: T) | Corrupt

  datatype Ordering = Less | Equal | Greater

  // ---------------------------------------------------------------- order

  /** Lexicographic order on byte slices, the order Rust gives `[u8]`. */
  predicate Lt(a: bytes, b: bytes) {
    |b| > 0 && (|a| == 0 || a[0] < b[0] || (a[0] == b[0] && Lt(a[1..], b[1..])))
  }

  predicate Leq(a: bytes, b: bytes) {
    a == b || Lt(a, b)
  }

  function CmpBytes(a: bytes, b: bytes): Ordering {
    if a == b then Equal else if Lt(a, b) then Less else Greater
  }

  lemma LtAsym(a: bytes, b: bytes)
    requires Lt(a, b)
    ensures a != b && !Lt(b, a)
  {
  }

  lemma {:induction false} LtTotal(a: bytes, b: bytes)
    ensures a == b || Lt(a, b) || Lt(b, a)
  {
    if |a| > 0 && |b| > 0 && a[0] == b[0] {
      LtTotal(a[1..], b[1..]);
      assert a == [a[0]] + a[1..] && b == [b[0]] + b[1..];
    }
  }

  lemma {:induction false} LtTrans(a: bytes, b: bytes, c: bytes)
    requires Lt(a, b) && Lt(b, c)
    ensures Lt(a, c)
  {
    if |a| > 0 && a[0] == b[0] && b[0] == c[0] {
      LtTrans(a[1..], b[1..], c[1..]);
    }
  }

  /** The three laws at once, for proofs that chain many comparisons. */
  lemma LtOrder()
    ensures forall a: bytes, b: bytes {:trigger Lt(a, b)} :: Lt(a, b) ==> a != b && !Lt(b, a)
    ensures forall a: bytes, b: bytes {:trigger Lt(a, b)} :: a == b || Lt(a, b) || Lt(b, a)
    ensures forall a: bytes, b: bytes, c: bytes {:trigger Lt(a, b), Lt(b, c)} :: Lt(a, b) && Lt(b, c) ==> Lt(a, c)
  {
    forall a: bytes, b: bytes | Lt(a, b) ensures a != b && !Lt(b, a) { LtAsym(a, b); }
    forall a: bytes, b: bytes ensures a == b || Lt(a, b) || Lt(b, a) { LtTotal(a, b); }
    forall a: bytes, b: bytes, c: bytes | Lt(a, b) && Lt(b, c) ensures Lt(a, c) { LtTrans(a, b, c); }
  }

  // ---------------------------------------------------------------- integers

  function Pow256(w: nat): (p: nat)
    ensures p > 0
  {
    if w == 0 then 1 else 256 * Pow256(w - 1)
  }

  lemma Pow256Values()
    ensures Pow256(1) == 256 && Pow256(4) == TWO32 && Pow256(8) == TWO64
  {
    assert Pow256(1) == 256;
    assert Pow256(2) == 0x1_0000;
    assert Pow256(3) == 0x100_0000;
    assert Pow256(4) == TWO32;
    assert Pow256(5) == 256 * TWO32;
    assert Pow256(6) == 256 * 256 * TWO32;
    assert Pow256(7) == TWO56;
    assert Pow256(8) == TWO64;
  }

  /** The low `w` bytes of `n`, least significant first: what `(n as uW).to_le_bytes()`
      writes, truncation included. */
  function Le(n: nat, w: nat): (b: bytes)
    ensures |b| == w
  {
    if w == 0 then [] else [n % 256] + Le(n / 256, w - 1)
  }

  function FromLe(b: bytes): nat {
    if |b| == 0 then 0 else b[0] + 256 * FromLe(b[1..])
  }

  lemma {:induction false} FromLeBound(b: bytes)
    ensures FromLe(b) < Pow256(|b|)
  {
    if |b| > 0 { FromLeBound(b[1..]); }
  }

  /** Writing then reading a fixed-width integer keeps it exactly when it fits. */
  lemma {:induction false} LeRoundTrip(n: nat, w: nat)
    ensures FromLe(Le(n, w)) == n <==> n < Pow256(w)
  {
    if w > 0 {
      LeRoundTrip(n / 256, w - 1);
      assert Le(n, w)[1..] == Le(n / 256, w - 1);
      assert FromLe(Le(n, w)) == n % 256 + 256 * FromLe(Le(n / 256, w - 1));
    }
  }

  lemma {:induction false} LeOfFromLe(b: bytes)
    ensures Le(FromLe(b), |b|) == b
  {
    if |b| > 0 {
      LeOfFromLe(b[1..]);
      assert b == [b[0]] + b[1..];
    }
  }

  function Be(n: nat, w: nat): (b: bytes)
    ensures |b| == w
  {
    if w == 0 then [] else Be(n / 256, w - 1) + [n % 256]
  }

  function FromBe(b: bytes): nat {
    if |b| == 0 then 0 else 256 * FromBe(b[..|b| - 1]) + b[|b| - 1]
  }

  lemma {:induction false} BeRoundTrip(n: nat, w: nat)
    requires n < Pow256(w)
    ensures FromBe(Be(n, w)) == n
  {
    if w > 0 {
      BeRoundTrip(n / 256, w - 1);
      assert Be(n, w)[..w - 1] == Be(n / 256, w - 1);
    }
  }

  lemma {:induction false} FromBeBound(b: bytes)
    ensures FromBe(b) < Pow256(|b|)
  {
    if |b| > 0 { FromBeBound(b[..|b| - 1]); }
  }

  lemma Le4(n: nat)
    requires n < TWO32
    ensures FromLe(Le(n, 4)) == n
  {
    Pow256Values();
    LeRoundTrip(n, 4);
  }

  lemma Le8(n: nat)
    requires n < TWO64
    ensures FromLe(Le(n, 8)) == n
  {
    Pow256Values();
    LeRoundTrip(n, 8);
  }

  lemma Quotient(n: nat, d: nat, a: nat, r: nat)
    requires n == d * a + r && r < d
    ensures n / d == a
  {
    var e := n / d;
    assert n == d * e + n % d;
    if a < e { Longer(d, a, e); } else if e < a { Longer(d, e, a); }
  }

  lemma Longer(d: nat, a: nat, e: nat)
    requires a < e
    ensures d * a + d <= d * e
  {
    var x := e - a - 1;
    assert d * x >= 0;
    assert d * (a + 1 + x) == d * a + d + d * x;
  }

  // ---------------------------------------------------------------- slices of concatenations

  /** `piece` stands in `data` at offset `o`. */
  predicate At(data: bytes, o: nat, piece: bytes) {
    o + |piece| <= |data| && data[o..o + |piece|] == piece
  }

  lemma AtSplit(data: bytes, o: nat, a: bytes, b: bytes)
    requires At(data, o, a + b)
    ensures At(data, o, a) && At(data, o + |a|, b)
  {
    assert (a + b)[..|a|] == a && (a + b)[|a|..] == b;
    assert data[o..o + |a|] == data[o..o + |a + b|][..|a|];
    assert data[o + |a|..o + |a| + |b|] == data[o..o + |a + b|][|a|..];
  }

  lemma AtFields(data: bytes, o: nat, a: bytes, b: bytes, c: bytes, d: bytes)
    requires At(data, o, a + b + (c + d))
    ensures At(data, o, a) && At(data, o + |a|, b) && At(data, o + |a| + |b|, c) && At(data, o + |a| + |b| + |c|, d)
  {
    AtSplit(data, o, a + b, c + d);
    AtSplit(data, o, a, b);
    AtSplit(data, o + |a + b|, c, d);
  }

  /** Appending four fields one by one. */
  lemma Appended(data: bytes, a: bytes, b: bytes, c: bytes, d: bytes, rest: bytes)
    ensures data + a + b + c + d + rest == data + ((a + b + (c + d)) + rest)
  {
  }
}
