/** The checksummed frames shared by the write-ahead log and the manifest:
    `[len:u32][crc:u32][payload]`. */
module Framing {
  import opened ByteStrings
  import opened Bloom

  function Frame(hash: Hash, p: bytes): (f: bytes)
    ensures |f| == |p| + 8
  {
    Le(|p|, 4) + Le(hash(p), 4) + p
  }

  function Frames(hash: Hash, ps: seq<bytes>): bytes {
    if ps == [] then [] else Frame(hash, ps[0]) + Frames(hash, ps[1..])
  }

  /** What stands at an offset: a complete frame, a bad checksum, or nothing complete. */
  datatype Next = End | BadChecksum | Found(payload: bytes, next: nat)

  function NextFrame(hash: Hash, buf: bytes, i: nat): (n: Next)
    ensures n.Found? ==> i < n.next <= |buf|
  {
    if i + 8 > |buf| then End
    else
      var len := FromLe(buf[i..i + 4]);
      var crc := FromLe(buf[i + 4..i + 8]);
      if i + 8 + len > |buf| then End
      else
        var rec := buf[i + 8..i + 8 + len];
        if hash(rec) != crc then BadChecksum else Found(rec, i + 8 + len)
  }

  /** The payloads of the frames from offset `i`: a frame that runs past the end of the file
      ends recovery quietly, a checksum that does not match is an error. */
  function Payloads(hash: Hash, buf: bytes, i: nat): Result<seq<bytes>>
    decreases |buf| - i
  {
    match NextFrame(hash, buf, i)
    case End => Ok([])
    case BadChecksum => Corrupt
    case Found(rec, next) => Prepend([rec], Payloads(hash, buf, next))
  }

  function Prepend(ps: seq<bytes>, rest: Result<seq<bytes>>): Result<seq<bytes>> {
    match rest case Corrupt => Corrupt case Ok(qs) => Ok(ps + qs)
  }

  /** How many of the frames are complete in the first `n` bytes of the file. */
  function Complete(ps: seq<bytes>, n: nat): (c: nat)
    ensures c <= |ps|
  {
    if ps == [] || |ps[0]| + 8 > n then 0 else 1 + Complete(ps[1..], n - |ps[0]| - 8)
  }

  ghost predicate FitPayloads(ps: seq<bytes>) {
    forall p :: p in ps ==> |p| < TWO32
  }

  lemma FrameAt(hash: Hash, buf: bytes, i: nat, p: bytes)
    requires |p| < TWO32 && At(buf, i, Frame(hash, p))
    ensures NextFrame(hash, buf, i) == Found(p, i + |Frame(hash, p)|)
  {
    AtSplit(buf, i, Le(|p|, 4) + Le(hash(p), 4), p);
    AtSplit(buf, i, Le(|p|, 4), Le(hash(p), 4));
    Le4(|p|);
    Le4(hash(p));
  }

  /** A frame cut short is the end, whatever of it is left. */
  lemma TornAt(hash: Hash, buf: bytes, i: nat, p: bytes)
    requires |p| < TWO32 && i <= |buf| && buf[i..] <= Frame(hash, p) && |buf| - i < |Frame(hash, p)|
    ensures NextFrame(hash, buf, i) == End
  {
    if i + 8 <= |buf| {
      assert buf[i..i + 8] == buf[i..][..8];
      HeaderAt(hash, buf, i, p);
    }
  }

  lemma HeaderAt(hash: Hash, buf: bytes, i: nat, p: bytes)
    requires |p| < TWO32 && i + 8 <= |buf| && buf[i..i + 8] == Frame(hash, p)[..8]
    ensures FromLe(buf[i..i + 4]) == |p|
  {
    assert Frame(hash, p)[..8] == Le(|p|, 4) + Le(hash(p), 4);
    AtSplit(buf, i, Le(|p|, 4), Le(hash(p), 4));
    Le4(|p|);
  }

  lemma PrefixStep(hash: Hash, ps: seq<bytes>, buf: bytes, i: nat)
    requires ps != [] && |ps[0]| < TWO32 && i <= |buf| && buf[i..] <= Frames(hash, ps)
    ensures var f := Frame(hash, ps[0]);
            if |buf| - i < |f| then NextFrame(hash, buf, i) == End
            else NextFrame(hash, buf, i) == Found(ps[0], i + |f|) && buf[i + |f|..] <= Frames(hash, ps[1..])
  {
    var f, more := Frame(hash, ps[0]), Frames(hash, ps[1..]);
    hide *;
    PrefixOfJoin(buf, i, f, more);
    if |buf| - i < |f| { TornAt(hash, buf, i, ps[0]); } else { FrameAt(hash, buf, i, ps[0]); }
  }

  lemma PrefixOfJoin(buf: bytes, i: nat, f: bytes, more: bytes)
    requires i <= |buf| && buf[i..] <= f + more
    ensures if |buf| - i < |f| then buf[i..] <= f else At(buf, i, f) && buf[i + |f|..] <= more
  {
    var rest := buf[i..];
    if |rest| < |f| {
      assert rest == (f + more)[..|rest|] == f[..|rest|];
    } else {
      assert buf[i..i + |f|] == rest[..|f|] == (f + more)[..|f|] == f;
      assert buf[i + |f|..] == rest[|f|..] == (f + more)[|f|..|rest|] == more[..|rest| - |f|];
    }
  }

  lemma NothingLeft(hash: Hash, buf: bytes, i: nat)
    requires i <= |buf| && buf[i..] <= Frames(hash, [])
    ensures Payloads(hash, buf, i) == Ok([]) && Complete([], |buf| - i) == 0
  {
    assert i == |buf|;
  }

  lemma FitRest(ps: seq<bytes>)
    requires FitPayloads(ps) && ps != []
    ensures FitPayloads(ps[1..]) && |ps[0]| < TWO32
  {
  }

  lemma NextPayload(hash: Hash, buf: bytes, i: nat)
    ensures Payloads(hash, buf, i) == match NextFrame(hash, buf, i)
                                      case End => Ok([])
                                      case BadChecksum => Corrupt
                                      case Found(p, next) => Prepend([p], Payloads(hash, buf, next))
  {
    hide NextFrame;
  }

  lemma CompleteStep(ps: seq<bytes>, n: nat)
    requires ps != []
    ensures Complete(ps, n) == if |ps[0]| + 8 > n then 0 else 1 + Complete(ps[1..], n - |ps[0]| - 8)
  {
  }

  lemma Prepended(ps: seq<bytes>, qs: seq<bytes>)
    ensures Prepend(ps, Ok(qs)) == Ok(ps + qs)
  {
  }

  /** Every byte-prefix of a frame file recovers to exactly the frames that are complete. */
  lemma {:induction false} PrefixRecovers(hash: Hash, ps: seq<bytes>, buf: bytes, i: nat)
    requires FitPayloads(ps) && i <= |buf| && buf[i..] <= Frames(hash, ps)
    ensures Payloads(hash, buf, i) == Ok(ps[..Complete(ps, |buf| - i)])
    decreases ps
  {
    hide *;
    if ps == [] {
      NothingLeft(hash, buf, i);
    } else {
      FitRest(ps);
      PrefixStep(hash, ps, buf, i);
      NextPayload(hash, buf, i);
      CompleteStep(ps, |buf| - i);
      var n := |ps[0]| + 8;
      if |buf| - i >= n {
        PrefixRecovers(hash, ps[1..], buf, i + n);
        var c := Complete(ps[1..], |buf| - i - n);
        assert [ps[0]] + ps[1..][..c] == ps[..1 + c];
        Prepended([ps[0]], ps[1..][..c]);
      } else {
        assert ps[..0] == [];
      }
    }
  }

  lemma {:induction false} AllComplete(hash: Hash, ps: seq<bytes>)
    ensures Complete(ps, |Frames(hash, ps)|) == |ps|
  {
    if ps != [] { AllComplete(hash, ps[1..]); }
  }

  /** A cut past the frames of the first `d` payloads leaves at least those complete. */
  lemma {:induction false} CompleteAtLeast(hash: Hash, ps: seq<bytes>, d: nat, n: nat)
    requires d <= |ps| && |Frames(hash, ps[..d])| <= n
    ensures d <= Complete(ps, n)
  {
    if d > 0 {
      assert ps[..d][1..] == ps[1..][..d - 1];
      CompleteAtLeast(hash, ps[1..], d - 1, n - |ps[0]| - 8);
    }
  }

  /** A whole file recovers whole. */
  lemma FileRecovers(hash: Hash, ps: seq<bytes>)
    requires FitPayloads(ps)
    ensures Payloads(hash, Frames(hash, ps), 0) == Ok(ps)
  {
    assert Frames(hash, ps)[0..] == Frames(hash, ps);
    PrefixRecovers(hash, ps, Frames(hash, ps), 0);
    AllComplete(hash, ps);
    assert ps[..|ps|] == ps;
  }

  lemma {:induction false} FramesSplit(hash: Hash, a: seq<bytes>, b: seq<bytes>)
    ensures Frames(hash, a + b) == Frames(hash, a) + Frames(hash, b)
  {
    if a == [] {
      assert a + b == b;
    } else {
      assert (a + b)[0] == a[0] && (a + b)[1..] == a[1..] + b;
      FramesSplit(hash, a[1..], b);
    }
  }

  /** What recovery accepts it read in full: the payloads, framed again, start the file. */
  lemma {:induction false} AcceptedBytes(hash: Hash, buf: bytes, i: nat)
    requires i <= |buf| && Payloads(hash, buf, i).Ok?
    ensures Frames(hash, Payloads(hash, buf, i).value) <= buf[i..]
    decreases |buf| - i
  {
    match NextFrame(hash, buf, i)
    case Found(rec, next) =>
      AcceptedBytes(hash, buf, next);
      FoundBytes(hash, buf, i);
      assert buf[i..] == buf[i..next] + buf[next..];
    case _ =>
  }

  lemma FoundBytes(hash: Hash, buf: bytes, i: nat)
    requires NextFrame(hash, buf, i).Found?
    ensures var n := NextFrame(hash, buf, i); buf[i..n.next] == Frame(hash, n.payload)
  {
    var n := NextFrame(hash, buf, i);
    LeOfFromLe(buf[i..i + 4]);
    LeOfFromLe(buf[i + 4..i + 8]);
    assert buf[i..n.next] == buf[i..i + 4] + buf[i + 4..i + 8] + buf[i + 8..n.next];
  }

  lemma {:induction false} AcceptedFit(hash: Hash, buf: bytes, i: nat)
    requires i <= |buf| && Payloads(hash, buf, i).Ok?
    ensures FitPayloads(Payloads(hash, buf, i).value)
    decreases |buf| - i
  {
    match NextFrame(hash, buf, i)
    case Found(rec, next) =>
      AcceptedFit(hash, buf, next);
      FromLeBound(buf[i..i + 4]);
      Pow256Values();
    case _ =>
  }

  lemma NothingRead(hash: Hash, buf: bytes, i: nat)
    ensures Payloads(hash, buf, i) == Ok([]) <==> NextFrame(hash, buf, i).End?
  {
    hide FromLe;
    match NextFrame(hash, buf, i)
    case Found(rec, next) => OnlyNothing(rec, Payloads(hash, buf, next));
    case _ =>
  }

  lemma OnlyNothing(rec: bytes, rest: Result<seq<bytes>>)
    ensures Prepend([rec], rest) != Ok([])
  {
    if rest.Ok? { assert ([rec] + rest.value)[0] == rec; }
  }

  // ---------------------------------------------------------------- appending after a torn frame

  lemma PrependTwice(ps: seq<bytes>, qs: seq<bytes>, rest: Result<seq<bytes>>)
    ensures Prepend(ps, Prepend(qs, rest)) == Prepend(ps + qs, rest) && Prepend([], rest) == rest
  {
    if rest.Ok? {
      assert ps + (qs + rest.value) == ps + qs + rest.value && [] + rest.value == rest.value;
    }
  }

  lemma {:induction false} PayloadsAfter(hash: Hash, ps: seq<bytes>, buf: bytes, i: nat)
    requires FitPayloads(ps) && At(buf, i, Frames(hash, ps))
    ensures Payloads(hash, buf, i) == Prepend(ps, Payloads(hash, buf, i + |Frames(hash, ps)|))
    decreases ps
  {
    hide NextFrame, Prepend;
    if ps == [] {
      PrependTwice([], [], Payloads(hash, buf, i));
    } else {
      var j := i + |ps[0]| + 8;
      var end := i + |Frames(hash, ps)|;
      AtSplit(buf, i, Frame(hash, ps[0]), Frames(hash, ps[1..]));
      FrameAt(hash, buf, i, ps[0]);
      PayloadsAfter(hash, ps[1..], buf, j);
      calc {
        Payloads(hash, buf, i);
        Prepend([ps[0]], Payloads(hash, buf, j));
        Prepend([ps[0]], Prepend(ps[1..], Payloads(hash, buf, end)));
        { PrependTwice([ps[0]], ps[1..], Payloads(hash, buf, end)); assert [ps[0]] + ps[1..] == ps; }
        Prepend(ps, Payloads(hash, buf, end));
      }
    }
  }

  lemma OnlyPrefix(ps: seq<bytes>, rest: Result<seq<bytes>>)
    ensures Prepend(ps, rest) == Ok(ps) <==> rest == Ok([])
  {
    if rest.Ok? { assert |ps + rest.value| == |ps| + |rest.value|; }
    assert ps + [] == ps;
  }

  /** A log is reopened without cutting off a frame torn by a crash, and later frames go behind the
      torn bytes. They are all read back exactly when the torn bytes happen to repeat: the file
      goes on with the appended frames right where the torn one stands, and nothing is read in
      what is then left over. */
  lemma KeptBehindTorn(hash: Hash, ps: seq<bytes>, torn: bytes, more: seq<bytes>)
    requires FitPayloads(ps) && FitPayloads(more)
    ensures var buf := Frames(hash, ps) + torn + Frames(hash, more);
            Payloads(hash, buf, 0) == Ok(ps + more) <==>
            && Frames(hash, more) <= torn + Frames(hash, more)
            && Payloads(hash, buf, |Frames(hash, ps)| + |Frames(hash, more)|) == Ok([])
  {
    hide *;
    var A, B := Frames(hash, ps), Frames(hash, more);
    var buf := A + torn + B;
    FramesSplit(hash, ps, more);
    FitBoth(ps, more);
    if Payloads(hash, buf, 0) == Ok(ps + more) {
      AcceptedBytes(hash, buf, 0);
      assert buf[0..] == buf == A + (torn + B);
      PrefixDrop(A, B, torn + B);
    }
    if B <= torn + B {
      PrefixAt(A, B, torn + B);
      assert A + (torn + B) == buf;
      PayloadsAfter(hash, ps + more, buf, 0);
      OnlyPrefix(ps + more, Payloads(hash, buf, |A| + |B|));
    }
  }

  lemma FitBoth(ps: seq<bytes>, more: seq<bytes>)
    requires FitPayloads(ps) && FitPayloads(more)
    ensures FitPayloads(ps + more)
  {
  }

  lemma PrefixDrop(a: bytes, b: bytes, c: bytes)
    requires a + b <= a + c
    ensures b <= c
  {
    assert b == (a + b)[|a|..] == (a + c)[|a|..|a| + |b|] == c[..|b|];
  }

  lemma PrefixAt(a: bytes, b: bytes, c: bytes)
    requires b <= c
    ensures At(a + c, 0, a + b)
  {
    assert (a + c)[..|a| + |b|] == a + c[..|b|];
  }

  /** The length field read at the torn bytes: what is left of the torn frame's, completed from
      the frame appended next. */
  function Promised(torn: nat, p: bytes, next: bytes): nat {
    var t := if torn < 4 then torn else 4;
    FromLe(Le(|p|, 4)[..t] + Le(|next|, 4)[..4 - t])
  }

  lemma PromisedIs(hash: Hash, buf: bytes, i: nat, torn: bytes, p: bytes, next: bytes, rest: bytes)
    requires |torn| < |Frame(hash, p)| && torn == Frame(hash, p)[..|torn|]
    requires At(buf, i, torn + (Frame(hash, next) + rest))
    ensures FromLe(buf[i..i + 4]) == Promised(|torn|, p, next)
    ensures |torn| >= 4 && |p| < TWO32 ==> Promised(|torn|, p, next) == |p|
  {
    var t := if |torn| < 4 then |torn| else 4;
    var x := torn + (Frame(hash, next) + rest);
    assert buf[i..i + 4] == buf[i..i + |x|][..4] == x[..4];
    assert Frame(hash, p)[..4] == Le(|p|, 4) && Frame(hash, next)[..4] == Le(|next|, 4);
    assert torn[..t] == Frame(hash, p)[..t] == Frame(hash, p)[..4][..t];
    assert x[..4] == torn[..t] + Frame(hash, next)[..4 - t];
    assert Frame(hash, next)[..4 - t] == Frame(hash, next)[..4][..4 - t];
    if |torn| >= 4 && |p| < TWO32 {
      assert Le(|p|, 4)[..4] + Le(|next|, 4)[..0] == Le(|p|, 4);
      Le4(|p|);
    }
  }

  /** What is read once something was appended behind a torn frame. If all that follows is shorter
      than the length field promises, it is silently skipped. If not, it is taken for the rest of
      the torn frame: an error when the checksum read there does not match it, which makes the
      whole file unreadable, and otherwise a payload nobody wrote followed by whatever stands
      behind it. From four torn bytes on the length is the torn frame's own. */
  lemma ReadBehindTorn(hash: Hash, ps: seq<bytes>, torn: bytes, p: bytes, more: seq<bytes>)
    requires FitPayloads(ps) && |p| < TWO32 && more != []
    requires |torn| < |Frame(hash, p)| && torn == Frame(hash, p)[..|torn|]
    ensures var buf := Frames(hash, ps) + torn + Frames(hash, more);
            var i, n := |Frames(hash, ps)|, Promised(|torn|, p, more[0]);
            var got, end := Payloads(hash, buf, 0), i + 8 + n;
            && i + 8 <= |buf| && (|torn| >= 4 ==> n == |p|)
            && (got == Ok(ps) <==> |torn| + |Frames(hash, more)| < 8 + n)
            && (end <= |buf| ==>
                if hash(buf[i + 8..end]) != FromLe(buf[i + 4..i + 8]) then got == Corrupt
                else got == Prepend(ps + [buf[i + 8..end]], Payloads(hash, buf, end)))
  {
    hide *;
    var A := Frames(hash, ps);
    var buf, i, n := A + torn + Frames(hash, more), |A|, Promised(|torn|, p, more[0]);
    TornParts(hash, A, torn, more);
    PromisedIs(hash, buf, i, torn, p, more[0], Frames(hash, more[1..]));
    PayloadsAfter(hash, ps, buf, 0);
    OnlyPrefix(ps, Payloads(hash, buf, i));
    ReadAt(hash, buf, i, n);
    if i + 8 + n <= |buf| {
      var q := buf[i + 8..i + 8 + n];
      PrependTwice(ps, [q], Payloads(hash, buf, i + 8 + n));
      PrependCorrupt(ps);
    }
  }

  lemma TornParts(hash: Hash, head: bytes, torn: bytes, more: seq<bytes>)
    requires more != []
    ensures var buf := head + torn + Frames(hash, more);
            && |head| + 8 <= |buf| && At(buf, 0, head)
            && At(buf, |head|, torn + (Frame(hash, more[0]) + Frames(hash, more[1..])))
  {
    hide Frame;
    assert head + torn + Frames(hash, more) == head + (torn + Frames(hash, more));
  }

  lemma PrependCorrupt(ps: seq<bytes>)
    ensures Prepend(ps, Corrupt) == Corrupt
  {
  }

  /** What stands behind a length field. */
  lemma ReadAt(hash: Hash, buf: bytes, i: nat, n: nat)
    requires i + 8 <= |buf| && FromLe(buf[i..i + 4]) == n
    ensures Payloads(hash, buf, i) == Ok([]) <==> |buf| < i + 8 + n
    ensures i + 8 + n <= |buf| ==>
              Payloads(hash, buf, i) ==
              if hash(buf[i + 8..i + 8 + n]) != FromLe(buf[i + 4..i + 8]) then Corrupt
              else Prepend([buf[i + 8..i + 8 + n]], Payloads(hash, buf, i + 8 + n))
  {
  }

  lemma {:induction false} FromLeJoin(a: bytes, b: bytes)
    ensures FromLe(a + b) == FromLe(a) + Pow256(|a|) * FromLe(b)
  {
    if a == [] {
      assert a + b == b;
    } else {
      FromLeJoin(a[1..], b);
      assert (a + b)[1..] == a[1..] + b;
      assert 256 * (Pow256(|a| - 1) * FromLe(b)) == Pow256(|a|) * FromLe(b);
    }
  }

  lemma {:induction false} LeTake(n: nat, w: nat, t: nat)
    requires t <= w
    ensures Le(n, w)[..t] == Le(n, t)
  {
    if t > 0 {
      LeTake(n / 256, w - 1, t - 1);
      assert Le(n, w)[..t] == [n % 256] + Le(n / 256, w - 1)[..t - 1];
    }
  }

  /** One to three torn bytes always swallow the next frame, unless its payload is very long: its
      own length is read shifted and asks for more than there is. */
  lemma ShortTornLoses(hash: Hash, ps: seq<bytes>, torn: bytes, p: bytes, next: bytes)
    requires FitPayloads(ps) && |p| < TWO32
    requires 1 <= |torn| < 4 && torn == Frame(hash, p)[..|torn|]
    requires 0 < |next| < Pow256(4 - |torn|)
    ensures Payloads(hash, Frames(hash, ps) + torn + Frames(hash, [next]), 0) == Ok(ps)
  {
    var t, n := |torn|, Promised(|torn|, p, next);
    ReadBehindTorn(hash, ps, torn, p, [next]);
    assert |Frames(hash, [next])| == |next| + 8 by { assert [next][1..] == []; }
    hide *;
    PromisedShort(t, p, next);
  }

  lemma PromisedShort(t: nat, p: bytes, next: bytes)
    requires 1 <= t < 4 && 0 < |next| < Pow256(4 - t)
    ensures t + |next| < Promised(t, p, next)
  {
    LeTake(|next|, 4, 4 - t);
    LeRoundTrip(|next|, 4 - t);
    FromLeJoin(Le(|p|, 4)[..t], Le(|next|, 4 - t));
    assert Pow256(t) >= 256 by { assert Pow256(t) == 256 * Pow256(t - 1); }
    assert Pow256(t) * |next| >= 256 * |next|;
  }

  /** Appending to a log that ends at a frame boundary loses nothing. */
  lemma CleanTailKeeps(hash: Hash, ps: seq<bytes>, more: seq<bytes>)
    requires FitPayloads(ps) && FitPayloads(more)
    ensures Payloads(hash, Frames(hash, ps) + Frames(hash, more), 0) == Ok(ps + more)
  {
    FramesSplit(hash, ps, more);
    FileRecovers(hash, ps + more);
  }
}
