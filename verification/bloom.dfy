/** The bloom filter of a table file (src/sstable/bloom.rs). */
module Bloom {
  import opened ByteStrings

  type u32 = n: nat | n < TWO32

  /** `crc32fast::hash`, code this model does not look into: every result holds for any hash. */
  type Hash = bytes -> u32

  datatype BloomFilter = BloomFilter(bits: bytes, nbits: nat, k: nat)

  function Max(a: nat, b: nat): nat { if a < b then b else a }

  function Min(a: nat, b: nat): nat { if a < b then a else b }

  function HashPair(hash: Hash, key: bytes): (nat, nat) {
    var h := hash(key);
    (h, Max(hash(Le(h, 4) + key), 1))
  }

  /** `h1.wrapping_add(i.wrapping_mul(h2)) as usize % nbits` in 32-bit arithmetic. */
  function Probe(hash: Hash, key: bytes, i: nat, nbits: nat): (h: nat)
    requires nbits > 0
    ensures h < nbits
  {
    var (h1, h2) := HashPair(hash, key);
    (h1 + (i * h2) % TWO32) % TWO32 % nbits
  }

  // ---------------------------------------------------------------- bits of bytes

  function Pow2(w: nat): (p: nat)
    ensures p > 0
  {
    if w == 0 then 1 else 2 * Pow2(w - 1)
  }

  /** `n & (1 << i) != 0`. */
  predicate BitOf(n: nat, i: nat) {
    if i == 0 then n % 2 == 1 else BitOf(n / 2, i - 1)
  }

  /** `n | (1 << i)`. */
  function OrBit(n: nat, i: nat): nat {
    if i == 0 then n / 2 * 2 + 1 else OrBit(n / 2, i - 1) * 2 + n % 2
  }

  lemma {:induction false} OrBitBits(n: nat, i: nat, j: nat)
    ensures BitOf(OrBit(n, i), j) <==> i == j || BitOf(n, j)
  {
    if i > 0 && j > 0 {
      OrBitBits(n / 2, i - 1, j - 1);
      assert OrBit(n, i) / 2 == OrBit(n / 2, i - 1);
    } else if i == 0 && j > 0 {
      assert OrBit(n, i) / 2 == n / 2;
    }
  }

  lemma {:induction false} OrBitFits(n: nat, i: nat, w: nat)
    requires i < w && n < Pow2(w)
    ensures OrBit(n, i) < Pow2(w)
  {
    if i > 0 { OrBitFits(n / 2, i - 1, w - 1); }
  }

  /** `b | (1 << i)` on a byte. */
  function OrByte(b: byte, i: nat): (r: byte)
    requires i < 8
    ensures r == OrBit(b, i)
  {
    assert Pow2(8) == 256 by { assert Pow2(4) == 16; }
    OrBitFits(b, i, 8);
    OrBit(b, i)
  }

  /** Bit `h` of a filter stored eight to a byte. */
  predicate BitSet(bits: bytes, h: nat)
    requires h / 8 < |bits|
  {
    BitOf(bits[h / 8], h % 8)
  }

  // ---------------------------------------------------------------- build

  /** The number of probes, `(bits_per_key * 0.69)` clamped to 1..30 and truncated. */
  function Probes(bitsPerKey: nat): (k: nat)
    ensures 1 <= k <= 30
  {
    Max(1, Min(30, bitsPerKey * 69 / 100))
  }

  function NumBits(numKeys: nat, bitsPerKey: nat): (n: nat)
    ensures n >= 64
  {
    Max(numKeys * Max(bitsPerKey, 1), 64)
  }

  function SetProbes(hash: Hash, bits: bytes, key: bytes, k: nat, nbits: nat): (out: bytes)
    requires nbits > 0 && nbits <= 8 * |bits|
    ensures |out| == |bits|
  {
    if k == 0 then bits
    else
      var before := SetProbes(hash, bits, key, k - 1, nbits);
      var h := Probe(hash, key, k - 1, nbits);
      before[h / 8 := OrByte(before[h / 8], h % 8)]
  }

  function SetKeys(hash: Hash, bits: bytes, keys: seq<bytes>, k: nat, nbits: nat): (out: bytes)
    requires nbits > 0 && nbits <= 8 * |bits|
    ensures |out| == |bits|
  {
    if keys == [] then bits
    else SetProbes(hash, SetKeys(hash, bits, keys[..|keys| - 1], k, nbits), keys[|keys| - 1], k, nbits)
  }

  function Zeros(n: nat): (z: bytes)
    ensures |z| == n
  {
    seq(n, i => 0)
  }

  /** The filter `BloomFilter::build` computes. */
  function Built(hash: Hash, keys: seq<bytes>, bitsPerKey: nat): (f: BloomFilter)
    ensures |f.bits| == (f.nbits + 7) / 8
  {
    var nbits := NumBits(|keys|, bitsPerKey);
    var k := Probes(Max(bitsPerKey, 1));
    BloomFilter(SetKeys(hash, Zeros((nbits + 7) / 8), keys, k, nbits), nbits, k)
  }

  method Build(hash: Hash, keys: seq<bytes>, bitsPerKey: nat) returns (f: BloomFilter)
    ensures f == Built(hash, keys, bitsPerKey)
  {
    hide Probe, OrByte;
    var bpk := Max(bitsPerKey, 1);
    var nbits := Max(|keys| * bpk, 64);
    var nbytes := (nbits + 7) / 8;
    var k := Probes(bpk);
    var bits := new byte[nbytes](_ => 0);
    assert bits[..] == Zeros(nbytes);
    for n := 0 to |keys|
      invariant bits[..] == SetKeys(hash, Zeros(nbytes), keys[..n], k, nbits)
    {
      ghost var start := bits[..];
      for i := 0 to k
        invariant bits[..] == SetProbes(hash, start, keys[n], i, nbits)
      {
        var h := Probe(hash, keys[n], i, nbits);
        ghost var before := bits[..];
        bits[h / 8] := OrByte(bits[h / 8], h % 8);
        assert bits[..] == before[h / 8 := OrByte(before[h / 8], h % 8)];
      }
      assert keys[..n + 1][..n] == keys[..n];
    }
    assert keys[..|keys|] == keys;
    f := BloomFilter(bits[..], nbits, k);
  }

  // ---------------------------------------------------------------- query

  predicate Passes(hash: Hash, bits: bytes, key: bytes, k: nat, nbits: nat)
    requires nbits > 0 && nbits <= 8 * |bits|
  {
    forall i :: 0 <= i < k ==> BitSet(bits, Probe(hash, key, i, nbits))
  }

  /** A filter whose bit array covers its bit count, as every built or reopened one has. */
  predicate WellFormed(f: BloomFilter) {
    f.nbits <= 8 * |f.bits|
  }

  predicate Contains(hash: Hash, f: BloomFilter, key: bytes)
    requires WellFormed(f)
  {
    |f.bits| == 0 || f.nbits == 0 || Passes(hash, f.bits, key, f.k, f.nbits)
  }

  method MayContain(hash: Hash, f: BloomFilter, key: bytes) returns (yes: bool)
    requires WellFormed(f)
    ensures yes == Contains(hash, f, key)
    ensures yes <==> |f.bits| == 0 || f.nbits == 0 || forall i :: 0 <= i < f.k ==> BitSet(f.bits, Probe(hash, key, i, f.nbits))
  {
    if |f.bits| == 0 || f.nbits == 0 { return true; }
    for i := 0 to f.k
      invariant forall j :: 0 <= j < i ==> BitSet(f.bits, Probe(hash, key, j, f.nbits))
    {
      var h := Probe(hash, key, i, f.nbits);
      if !BitOf(f.bits[h / 8], h % 8) { return false; }
    }
    return true;
  }

  // ---------------------------------------------------------------- no false negatives

  ghost predicate Covers(bits: bytes, out: bytes) {
    |bits| == |out| && forall h: nat :: h / 8 < |bits| && BitSet(bits, h) ==> BitSet(out, h)
  }

  lemma OrKeepsBits(bits: bytes, h: nat, out: bytes)
    requires h / 8 < |bits| && out == bits[h / 8 := OrByte(bits[h / 8], h % 8)]
    ensures Covers(bits, out) && BitSet(out, h)
  {
    OrBitBits(bits[h / 8], h % 8, h % 8);
    forall g: nat | g / 8 < |bits| && BitSet(bits, g) ensures BitSet(out, g) {
      OrBitBits(bits[h / 8], h % 8, g % 8);
    }
  }

  lemma {:induction false} SetProbesPasses(hash: Hash, bits: bytes, key: bytes, k: nat, nbits: nat)
    requires nbits > 0 && nbits <= 8 * |bits|
    ensures Covers(bits, SetProbes(hash, bits, key, k, nbits))
    ensures Passes(hash, SetProbes(hash, bits, key, k, nbits), key, k, nbits)
  {
    if k > 0 {
      SetProbesPasses(hash, bits, key, k - 1, nbits);
      OrKeepsBits(SetProbes(hash, bits, key, k - 1, nbits), Probe(hash, key, k - 1, nbits),
                  SetProbes(hash, bits, key, k, nbits));
    }
  }

  lemma {:induction false} SetKeysPass(hash: Hash, bits: bytes, keys: seq<bytes>, key: bytes, k: nat, nbits: nat)
    requires nbits > 0 && nbits <= 8 * |bits| && key in keys
    ensures Passes(hash, SetKeys(hash, bits, keys, k, nbits), key, k, nbits)
  {
    var n := |keys| - 1;
    var before := SetKeys(hash, bits, keys[..n], k, nbits);
    SetProbesPasses(hash, before, keys[n], k, nbits);
    if key != keys[n] {
      assert key in keys[..n];
      SetKeysPass(hash, bits, keys[..n], key, k, nbits);
    }
  }

  /** Every key the filter was built from passes it. */
  lemma NoFalseNegatives(hash: Hash, keys: seq<bytes>, bitsPerKey: nat, key: bytes)
    requires key in keys
    ensures WellFormed(Built(hash, keys, bitsPerKey))
    ensures Contains(hash, Built(hash, keys, bitsPerKey), key)
  {
    var nbits := NumBits(|keys|, bitsPerKey);
    SetKeysPass(hash, Zeros((nbits + 7) / 8), keys, key, Probes(Max(bitsPerKey, 1)), nbits);
  }

  // ---------------------------------------------------------------- exactly what passes

  /** Bit `i` of a number. */
  lemma {:induction false} BitIs(n: nat, i: nat)
    ensures BitOf(n, i) <==> n / Pow2(i) % 2 == 1
  {
    if i > 0 {
      BitIs(n / 2, i - 1);
      HalfTwice(n, Pow2(i - 1));
    }
  }

  lemma HalfTwice(n: nat, p: nat)
    requires p > 0
    ensures n / 2 / p == n / (2 * p)
  {
    var a, b := n / 2 / p, n / 2 % p;
    assert n / 2 == p * a + b && n == 2 * (p * a + b) + n % 2;
    var d, r := 2 * p, 2 * b + n % 2;
    assert d * a == 2 * (p * a) && r < d;
    Quotient(n, d, a, r);
  }

  /** Where probe `i` of a key falls: two checksums, the second one salted with the first, combined
      in 32-bit arithmetic. */
  lemma ProbeIs(hash: Hash, key: bytes, i: nat, nbits: nat)
    requires nbits > 0
    ensures var h := hash(key);
            var step := hash(Le(h, 4) + key);
            Probe(hash, key, i, nbits) == (h + i * (if step == 0 then 1 else step)) % TWO32 % nbits
  {
    var h := hash(key);
    var step := HashPair(hash, key).1;
    InnerMod(h, i * step);
  }

  lemma InnerMod(a: nat, b: nat)
    ensures (a + b % TWO32) % TWO32 == (a + b) % TWO32
  {
  }

  /** The number of probes is 0.69 per bit per key, rounded down and kept within 1 to 30; the number
      of bits is that per key, at least 64. */
  lemma BuiltSizes(hash: Hash, keys: seq<bytes>, bitsPerKey: nat)
    ensures var f, b := Built(hash, keys, bitsPerKey), if bitsPerKey == 0 then 1 else bitsPerKey;
            && f.nbits == (if |keys| * b < 64 then 64 else |keys| * b)
            && 1 <= f.k <= 30 && (f.k > 1 ==> 100 * f.k <= 69 * b) && (f.k < 30 ==> 69 * b < 100 * (f.k + 1))
  {
  }

  /** `g` is where one of the first `k` probes of a key falls. */
  ghost predicate Hit(hash: Hash, key: bytes, k: nat, nbits: nat, g: nat)
    requires nbits > 0
  {
    exists j :: 0 <= j < k && g == Probe(hash, key, j, nbits)
  }

  lemma {:induction false} SetProbesBits(hash: Hash, bits: bytes, key: bytes, k: nat, nbits: nat, g: nat)
    requires nbits > 0 && nbits <= 8 * |bits| && g / 8 < |bits|
    ensures BitSet(SetProbes(hash, bits, key, k, nbits), g) <==> BitSet(bits, g) || Hit(hash, key, k, nbits, g)
  {
    if k > 0 {
      SetProbesBits(hash, bits, key, k - 1, nbits, g);
      var before, h := SetProbes(hash, bits, key, k - 1, nbits), Probe(hash, key, k - 1, nbits);
      OrBitBits(before[h / 8], h % 8, g % 8);
      hide BitOf, OrByte, Probe;
      assert Hit(hash, key, k, nbits, g) <==> Hit(hash, key, k - 1, nbits, g) || g == h;
      SameBit(g, h);
    }
  }

  lemma SameBit(g: nat, h: nat)
    ensures g / 8 == h / 8 && g % 8 == h % 8 ==> g == h
  {
  }

  lemma {:induction false} SetKeysBits(hash: Hash, bits: bytes, keys: seq<bytes>, k: nat, nbits: nat, g: nat)
    requires nbits > 0 && nbits <= 8 * |bits| && g / 8 < |bits|
    ensures BitSet(SetKeys(hash, bits, keys, k, nbits), g) <==>
            BitSet(bits, g) || exists q :: q in keys && Hit(hash, q, k, nbits, g)
  {
    hide Hit, BitSet, SetProbes;
    if keys != [] {
      var front, last := keys[..|keys| - 1], keys[|keys| - 1];
      SetKeysBits(hash, bits, front, k, nbits, g);
      SetProbesBits(hash, SetKeys(hash, bits, front, k, nbits), last, k, nbits, g);
      assert keys == front + [last];
    }
  }

  lemma NoBits(n: nat, i: nat)
    requires n == 0
    ensures !BitOf(n, i)
  {
  }

  /** A bit of a built filter is set exactly if a probe of one of its keys falls there. */
  lemma BuiltBits(hash: Hash, keys: seq<bytes>, bitsPerKey: nat, g: nat)
    requires g < Built(hash, keys, bitsPerKey).nbits
    ensures var f := Built(hash, keys, bitsPerKey);
            BitSet(f.bits, g) <==> exists q, j :: q in keys && 0 <= j < f.k && g == Probe(hash, q, j, f.nbits)
  {
    var f := Built(hash, keys, bitsPerKey);
    var z := Zeros((f.nbits + 7) / 8);
    NoBits(z[g / 8], g % 8);
    hide BitOf, Probe, SetKeys;
    SetKeysBits(hash, z, keys, f.k, f.nbits, g);
    if q :| q in keys && Hit(hash, q, f.k, f.nbits, g) {
      var j :| 0 <= j < f.k && g == Probe(hash, q, j, f.nbits);
      assert q in keys && 0 <= j < f.k && g == Probe(hash, q, j, f.nbits);
    }
    if q, j :| q in keys && 0 <= j < f.k && g == Probe(hash, q, j, f.nbits) { assert Hit(hash, q, f.k, f.nbits, g); }
  }

  /** So a key passes a built filter exactly if each of its probes falls where a probe of one of the
      filter's keys falls; any other key is rejected. */
  lemma PassesExactly(hash: Hash, keys: seq<bytes>, bitsPerKey: nat, key: bytes)
    ensures WellFormed(Built(hash, keys, bitsPerKey)) && Built(hash, keys, bitsPerKey).nbits > 0
    ensures var f := Built(hash, keys, bitsPerKey);
            Contains(hash, f, key) <==>
            forall i :: 0 <= i < f.k ==>
              exists q, j :: q in keys && 0 <= j < f.k && Probe(hash, key, i, f.nbits) == Probe(hash, q, j, f.nbits)
  {
    var f := Built(hash, keys, bitsPerKey);
    BuiltSizes(hash, keys, bitsPerKey);
    forall i: nat | i < f.k
      ensures BitSet(f.bits, Probe(hash, key, i, f.nbits)) <==>
              exists q, j :: q in keys && 0 <= j < f.k && Probe(hash, key, i, f.nbits) == Probe(hash, q, j, f.nbits) {
      BuiltBits(hash, keys, bitsPerKey, Probe(hash, key, i, f.nbits));
    }
    hide Built, BitSet, Probe;
  }

  // ---------------------------------------------------------------- encoding

  function Encode(f: BloomFilter): (b: bytes)
    ensures |b| == 12 + |f.bits|
  {
    Le(f.k, 4) + Le(f.nbits, 8) + f.bits
  }

  function Decode(b: bytes): Result<BloomFilter> {
    if |b| < 12 then Corrupt
    else Ok(BloomFilter(b[12..], FromLe(b[4..12]), FromLe(b[..4])))
  }

  lemma RoundTrip(f: BloomFilter)
    ensures Decode(Encode(f)) == Ok(f) <==> f.k < TWO32 && f.nbits < TWO64
  {
    var b := Encode(f);
    assert b[..4] == Le(f.k, 4) && b[4..12] == Le(f.nbits, 8) && b[12..] == f.bits;
    Pow256Values();
    LeRoundTrip(f.k, 4);
    LeRoundTrip(f.nbits, 8);
  }
}
