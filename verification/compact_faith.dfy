/** Why replacing compaction inputs by their newest versions keeps the sources faithful. */
module CompactionFaith {
  import opened ByteStrings
  import opened Keys
  import opened Records
  import opened Sources
  import opened Histories

  ghost predicate NewestOfKey(I: Source, n: Record) {
    n in I && forall q :: q in I && q.ik.userKey == n.ik.userKey ==> q.ik.seqno <= n.ik.seqno
  }

  /** A tombstone that `run_compaction` may leave out. */
  ghost predicate Droppable(n: Record, lastLevel: bool, watermark: nat) {
    n.ik.kind == Delete && n.ik.seqno <= watermark && lastLevel
  }

  /** `r`'s key survives in the output, or its newest version was a dropped tombstone. */
  ghost predicate Survives(I: Source, O: Source, lastLevel: bool, watermark: nat, r: Record) {
    || (exists o :: o in O && o.ik.userKey == r.ik.userKey)
    || (exists n :: NewestOfKey(I, n) && n.ik.userKey == r.ik.userKey && Droppable(n, lastLevel, watermark))
  }

  /** What a compaction of the inputs `I` writes out: one newest version per key, except dropped
      tombstones. */
  ghost predicate KeepsNewest(I: Source, O: Source, lastLevel: bool, watermark: nat) {
    && (forall o :: o in O ==> NewestOfKey(I, o))
    && (forall r :: r in I ==> Survives(I, O, lastLevel, watermark, r))
  }

  ghost predicate KeyDisjoint(x: Source, y: Source) {
    forall q, r :: q in x && r in y ==> q.ik.userKey != r.ik.userKey
  }

  /** The sources around a compaction: those above, the upper level's (`L0` has one per file),
      the level below, those deeper; and the inputs and output of the job. */
  datatype Parts = Parts(above: seq<Source>, uppers: seq<Source>, low: Source, deeper: seq<Source>,
                         upperIn: Source, lowerIn: Source, output: Source)
  {
    function Inputs(): Source { upperIn + lowerIn }

    function Before(): seq<Source> { above + uppers + [low] + deeper }

    function UppersAfter(): (ss: seq<Source>)
      ensures |ss| == |uppers|
    {
      seq(|uppers|, i requires 0 <= i < |uppers| => uppers[i] - upperIn)
    }

    function LowAfter(): Source { low - lowerIn + output }

    function After(): seq<Source> { above + UppersAfter() + [LowAfter()] + deeper }

    /** Inputs are whole key groups of their sources, and nothing lies below the last level. */
    ghost predicate Fits(lastLevel: bool, watermark: nat) {
      && (forall r :: r in upperIn ==> exists i :: 0 <= i < |uppers| && r in uppers[i])
      && (forall i :: 0 <= i < |uppers| ==> KeyDisjoint(uppers[i] - upperIn, upperIn))
      && lowerIn <= low
      && KeyDisjoint(low - lowerIn, Inputs())
      && KeepsNewest(Inputs(), output, lastLevel, watermark)
      && (lastLevel ==> deeper == [])
    }

    /** Position of `low` in the list. */
    function LowAt(): nat { |above| + |uppers| }
  }

  lemma Places(p: Parts)
    ensures |p.Before()| == |p.After()| == p.LowAt() + 1 + |p.deeper|
    ensures forall i :: 0 <= i < |p.above| ==> p.Before()[i] == p.After()[i] == p.above[i]
    ensures forall i :: 0 <= i < |p.uppers| ==> p.Before()[|p.above| + i] == p.uppers[i] && p.After()[|p.above| + i] == p.uppers[i] - p.upperIn
    ensures p.Before()[p.LowAt()] == p.low && p.After()[p.LowAt()] == p.LowAfter()
    ensures forall i :: p.LowAt() < i < |p.Before()| ==> p.Before()[i] == p.After()[i]
  {
  }

  // ---------------------------------------------------------------- the order is kept

  lemma AboveLow(x: Source, p: Parts, lastLevel: bool, watermark: nat)
    requires p.Fits(lastLevel, watermark) && Shadows(x, p.low)
    requires forall i :: 0 <= i < |p.uppers| ==> Shadows(x, p.uppers[i])
    ensures Shadows(x, p.LowAfter())
  {
    hide Survives;
    forall q, r | q in x && r in p.LowAfter() && q.ik.userKey == r.ik.userKey && q.ik.seqno <= r.ik.seqno
      ensures r in x {
      if r !in p.low {
        assert r in p.upperIn;
        var i :| 0 <= i < |p.uppers| && r in p.uppers[i];
        assert Shadows(x, p.uppers[i]);
      }
    }
  }

  lemma UpperAnything(u: Source, upperIn: Source, y: Source, y': Source)
    requires Shadows(u, y) && KeyDisjoint(u - upperIn, upperIn) && y' <= y
    ensures Shadows(u - upperIn, y')
  {
    forall q, r | q in u - upperIn && r in y' && q.ik.userKey == r.ik.userKey && q.ik.seqno <= r.ik.seqno
      ensures r in u - upperIn {
    }
  }

  lemma UpperLow(u: Source, p: Parts, lastLevel: bool, watermark: nat)
    requires p.Fits(lastLevel, watermark) && Shadows(u, p.low) && KeyDisjoint(u - p.upperIn, p.upperIn)
    ensures Shadows(u - p.upperIn, p.LowAfter())
  {
    hide Survives;
    forall q, r | q in u - p.upperIn && r in p.LowAfter() && q.ik.userKey == r.ik.userKey && q.ik.seqno <= r.ik.seqno
      ensures r in u - p.upperIn {
      assert r in p.upperIn || r in p.low;
    }
  }

  lemma LowDeeper(p: Parts, y: Source, lastLevel: bool, watermark: nat)
    requires p.Fits(lastLevel, watermark) && Shadows(p.low, y)
    requires forall i :: 0 <= i < |p.uppers| ==> Shadows(p.uppers[i], y)
    requires OneWritePerSeq(p.Inputs())
    ensures Shadows(p.LowAfter(), y)
  {
    hide Survives;
    forall q, r | q in p.LowAfter() && r in y && q.ik.userKey == r.ik.userKey && q.ik.seqno <= r.ik.seqno
      ensures r in p.LowAfter() {
      if q in p.output {
        assert NewestOfKey(p.Inputs(), q);
        if q in p.lowerIn {
          assert r in p.low;
        } else {
          var i :| 0 <= i < |p.uppers| && q in p.uppers[i];
          assert Shadows(p.uppers[i], y) && KeyDisjoint(p.uppers[i] - p.upperIn, p.upperIn);
        }
        assert r in p.Inputs();
      }
    }
  }

  lemma StepOrdered(p: Parts, lastLevel: bool, watermark: nat, i: nat, j: nat)
    requires p.Fits(lastLevel, watermark) && Ordered(p.Before()) && OneWritePerSeq(p.Inputs())
    requires i < j < |p.Before()|
    ensures |p.After()| == |p.Before()| && Shadows(p.After()[i], p.After()[j])
  {
    Places(p);
    var low, a := p.LowAt(), |p.above|;
    hide Shadows, KeyDisjoint, KeepsNewest, OneWritePerSeq;
    assert Shadows(p.Before()[i], p.Before()[j]);
    if j == low {
      forall m | 0 <= m < |p.uppers| && i < a ensures Shadows(p.above[i], p.uppers[m]) {
        assert Shadows(p.Before()[i], p.Before()[a + m]);
      }
      if i < a {
        AboveLow(p.above[i], p, lastLevel, watermark);
      } else {
        UpperLow(p.uppers[i - a], p, lastLevel, watermark);
      }
    } else if i == low {
      forall m | 0 <= m < |p.uppers| ensures Shadows(p.uppers[m], p.Before()[j]) {
        assert Shadows(p.Before()[a + m], p.Before()[j]);
      }
      LowDeeper(p, p.Before()[j], lastLevel, watermark);
    } else if i < a {
      ShadowsPart(p.After()[i], p.Before()[j], p.After()[j]);
    } else if i < low {
      UpperAnything(p.uppers[i - a], p.upperIn, p.Before()[j], p.After()[j]);
    }
  }

  lemma ShadowsPart(x: Source, y: Source, y': Source)
    requires Shadows(x, y) && y' <= y
    ensures Shadows(x, y')
  {
  }

  lemma AfterOrdered(p: Parts, lastLevel: bool, watermark: nat)
    requires p.Fits(lastLevel, watermark) && Ordered(p.Before()) && OneWritePerSeq(p.Inputs())
    ensures Ordered(p.After())
  {
    Places(p);
    hide Shadows;
    forall i, j | 0 <= i < j < |p.After()| ensures Shadows(p.After()[i], p.After()[j]) {
      StepOrdered(p, lastLevel, watermark, i, j);
    }
  }

  // ---------------------------------------------------------------- the meaning is kept

  lemma InputsInside(p: Parts, lastLevel: bool, watermark: nat)
    requires p.Fits(lastLevel, watermark)
    ensures p.Inputs() <= Union(p.Before())
  {
    Places(p);
    hide KeyDisjoint, KeepsNewest;
    forall r | r in p.Inputs() ensures r in Union(p.Before()) {
      UnionMembers(p.Before(), r);
      if r in p.upperIn {
        var i :| 0 <= i < |p.uppers| && r in p.uppers[i];
        assert r in p.Before()[|p.above| + i];
      } else {
        assert r in p.Before()[p.LowAt()];
      }
    }
  }

  /** Afterwards there is the output, and everything that was not an input. */
  lemma AfterUnion(p: Parts, lastLevel: bool, watermark: nat, r: Record)
    requires p.Fits(lastLevel, watermark)
    ensures r in Union(p.After()) ==> r in Union(p.Before())
    ensures r in Union(p.Before()) && r !in p.Inputs() ==> r in Union(p.After())
    ensures r in p.output ==> r in Union(p.After())
  {
    Places(p);
    InputsInside(p, lastLevel, watermark);
    UnionMembers(p.Before(), r);
    UnionMembers(p.After(), r);
    hide KeyDisjoint, Survives;
    if r in Union(p.After()) {
      var i :| 0 <= i < |p.After()| && r in p.After()[i];
      if r !in p.Before()[i] { assert i == p.LowAt() && r in p.output && NewestOfKey(p.Inputs(), r); }
    }
    if r in Union(p.Before()) && r !in p.Inputs() {
      var i :| 0 <= i < |p.Before()| && r in p.Before()[i];
      assert r in p.After()[i];
    }
    if r in p.output { assert r in p.After()[p.LowAt()]; }
  }

  /** A newest input that is gone afterwards leaves nothing older of its key behind. */
  lemma NothingLeft(p: Parts, lastLevel: bool, watermark: nat, w: Record, q: Record)
    requires p.Fits(lastLevel, watermark) && lastLevel && Ordered(p.Before())
    requires OneWritePerSeq(Union(p.Before()))
    requires NewestOfKey(p.Inputs(), w) && w !in Union(p.After())
    requires q in Union(p.After()) && q.ik.userKey == w.ik.userKey
    ensures w.ik.seqno < q.ik.seqno
  {
    if q.ik.seqno <= w.ik.seqno {
      AfterUnion(p, lastLevel, watermark, q);
      Places(p);
      UnionMembers(p.After(), q);
      UnionMembers(p.After(), w);
      InputsInside(p, lastLevel, watermark);
      assert forall n :: 0 <= n < |p.After()| ==> w !in p.After()[n];
      OutputIsNewest(p, lastLevel, watermark, w, q);
      hide Survives, OneWritePerSeq, KeepsNewest;
      var i :| 0 <= i < |p.After()| && q in p.After()[i];
      if i < p.LowAt() { WShadowed(p, lastLevel, watermark, w, q, i); }
    }
  }

  lemma OutputIsNewest(p: Parts, lastLevel: bool, watermark: nat, w: Record, q: Record)
    requires p.Fits(lastLevel, watermark) && OneWritePerSeq(Union(p.Before()))
    requires w in p.Inputs() && q.ik.userKey == w.ik.userKey && q.ik.seqno <= w.ik.seqno
    ensures q in p.output ==> q == w
  {
    hide Survives;
    InputsInside(p, lastLevel, watermark);
    if q in p.output { SameSeq(p, lastLevel, watermark, w, q); }
  }

  lemma SameSeq(p: Parts, lastLevel: bool, watermark: nat, w: Record, q: Record)
    requires p.Fits(lastLevel, watermark) && OneWritePerSeq(Union(p.Before()))
    requires w in p.Inputs() && NewestOfKey(p.Inputs(), q) && q.ik.userKey == w.ik.userKey && q.ik.seqno <= w.ik.seqno
    ensures q == w
  {
    hide Survives;
    InputsInside(p, lastLevel, watermark);
  }

  lemma WShadowed(p: Parts, lastLevel: bool, watermark: nat, w: Record, q: Record, i: nat)
    requires p.Fits(lastLevel, watermark) && Ordered(p.Before())
    requires i < p.LowAt() && |p.After()| == |p.Before()| > p.LowAt() && q in p.After()[i]
    requires w in p.Inputs() && q.ik.userKey == w.ik.userKey && q.ik.seqno <= w.ik.seqno
    ensures w in p.After()[i]
  {
    Places(p);
    hide Survives;
    var low, a := p.LowAt(), |p.above|;
    if i >= a { assert KeyDisjoint(p.uppers[i - a] - p.upperIn, p.upperIn); }
    if w in p.lowerIn {
      assert Shadows(p.Before()[i], p.Before()[low]);
    } else {
      var m :| 0 <= m < |p.uppers| && w in p.uppers[m];
      if i < a { assert Shadows(p.Before()[i], p.Before()[a + m]); }
    }
  }

  lemma CoversAfter(p: Parts, lastLevel: bool, watermark: nat, H: History, k: bytes)
    requires p.Fits(lastLevel, watermark) && Increasing(H) && Faithful(p.Before(), H)
    ensures Covers(Union(p.After()), H, k)
  {
    var S, T := Union(p.Before()), Union(p.After());
    assert Covers(S, H, k);
    IncreasingUnique(H);
    SubsetUnique(S, Contents(H));
    LastWriteIsNewest(H, k);
    forall r | r in T ensures r in S { AfterUnion(p, lastLevel, watermark, r); }
    var last := LastWrite(H, k);
    if last.Some? && last.value in S && last.value !in T {
      var w := last.value;
      AfterUnion(p, lastLevel, watermark, w);
      InputsInside(p, lastLevel, watermark);
      assert NewestOfKey(p.Inputs(), w);
      WasDropped(p, lastLevel, watermark, w);
      forall q | q in T ensures q.ik.userKey != k {
        if q.ik.userKey == k { NothingLeft(p, lastLevel, watermark, w, q); }
      }
    }
  }

  lemma WasDropped(p: Parts, lastLevel: bool, watermark: nat, w: Record)
    requires p.Fits(lastLevel, watermark) && OneWritePerSeq(Union(p.Before()))
    requires NewestOfKey(p.Inputs(), w) && w !in p.output
    ensures Droppable(w, lastLevel, watermark)
  {
    InputsInside(p, lastLevel, watermark);
    assert Survives(p.Inputs(), p.output, lastLevel, watermark, w);
    if o :| o in p.output && o.ik.userKey == w.ik.userKey {
      assert NewestOfKey(p.Inputs(), o);
      SameSeq(p, lastLevel, watermark, w, o);
    } else {
      var n :| NewestOfKey(p.Inputs(), n) && n.ik.userKey == w.ik.userKey && Droppable(n, lastLevel, watermark);
      SameSeq(p, lastLevel, watermark, w, n);
    }
  }

  /** Compaction preserves meaning: no older value comes back, whatever the sources above hold. */
  lemma CompactionKeepsFaith(p: Parts, lastLevel: bool, watermark: nat, H: History)
    requires p.Fits(lastLevel, watermark) && Increasing(H) && Faithful(p.Before(), H)
    ensures Faithful(p.After(), H)
  {
    IncreasingUnique(H);
    InputsInside(p, lastLevel, watermark);
    SubsetUnique(p.Inputs(), Contents(H));
    AfterOrdered(p, lastLevel, watermark);
    hide OneWritePerSeq, Ordered;
    forall r | r in Union(p.After()) ensures r in Contents(H) { AfterUnion(p, lastLevel, watermark, r); }
    forall k ensures Covers(Union(p.After()), H, k) { CoversAfter(p, lastLevel, watermark, H, k); }
  }

  // ---------------------------------------------------------------- reads at an older position

  /** At or above the newest input version of `k`, a compaction changes no lookup of `k`. */
  lemma LookupKept(p: Parts, lastLevel: bool, watermark: nat, k: bytes, maxSeq: nat)
    requires p.Fits(lastLevel, watermark) && Ordered(p.Before()) && OneWritePerSeq(Union(p.Before()))
    requires forall r :: r in p.Inputs() && r.ik.userKey == k ==> r.ik.seqno <= maxSeq
    ensures ValueOf(Newest(Union(p.Before()), k, maxSeq)) == ValueOf(Newest(Union(p.After()), k, maxSeq))
  {
    var S, T := Union(p.Before()), Union(p.After());
    forall r | r in T ensures r in S { AfterUnion(p, lastLevel, watermark, r); }
    SubsetUnique(T, S);
    var m := Newest(S, k, maxSeq);
    if m.Some? && m.value in T {
      NewestIs(T, k, maxSeq, m.value);
    } else {
      if m.Some? {
        var w := m.value;
        AfterUnion(p, lastLevel, watermark, w);
        InputsInside(p, lastLevel, watermark);
        assert NewestOfKey(p.Inputs(), w);
        WasDropped(p, lastLevel, watermark, w);
        forall q | q in T ensures !Visible(q, k, maxSeq) {
          if q.ik.userKey == k { NothingLeft(p, lastLevel, watermark, w, q); }
        }
      }
      NewestNone(T, k, maxSeq);
    }
  }

  lemma OutputOnTop(p: Parts, r: Record)
    ensures r in Union(p.After()) <==> r in Union(p.(output := {}).After()) || r in p.output
  {
    var p' := p.(output := {});
    Places(p);
    Places(p');
    UnionMembers(p.After(), r);
    UnionMembers(p'.After(), r);
    assert p.After()[p.LowAt()] == p'.After()[p.LowAt()] + p.output;
    forall i | 0 <= i < |p.After()| && i != p.LowAt() ensures p.After()[i] == p'.After()[i] {
      if |p.above| <= i < p.LowAt() { assert p.After()[i] == p.uppers[i - |p.above|] - p.upperIn; }
    }
  }

  /** Below the newest input version of `k`, a lookup afterwards answers as if the inputs had
      never held `k`, whatever the watermark: a live snapshot does not protect them. */
  lemma LookupBelow(p: Parts, lastLevel: bool, watermark: nat, k: bytes, maxSeq: nat, n: Record)
    requires p.Fits(lastLevel, watermark) && OneWritePerSeq(Union(p.Before()))
    requires n in p.Inputs() && n.ik.userKey == k && maxSeq < n.ik.seqno
    ensures Newest(Union(p.After()), k, maxSeq) == Newest(Union(p.(output := {}).After()), k, maxSeq)
  {
    var p' := p.(output := {});
    var T, T' := Union(p.After()), Union(p'.After());
    forall r ensures r in T <==> r in T' || r in p.output { OutputOnTop(p, r); }
    forall r | r in T ensures r in Union(p.Before()) { AfterUnion(p, lastLevel, watermark, r); }
    SubsetUnique(T, Union(p.Before()));
    forall o | o in p.output ensures !Visible(o, k, maxSeq) { assert NewestOfKey(p.Inputs(), o); }
    var m := Newest(T', k, maxSeq);
    if m.Some? { NewestIs(T, k, maxSeq, m.value); } else { NewestNone(T, k, maxSeq); }
  }

  /** Exactly when a read below the newest input version of `k` survives: if the version it sees is
      none that the compaction consumes, that is, if it still lies outside the inputs. */
  lemma SnapshotReadKept(p: Parts, lastLevel: bool, watermark: nat, k: bytes, maxSeq: nat, n: Record)
    requires p.Fits(lastLevel, watermark) && OneWritePerSeq(Union(p.Before()))
    requires n in p.Inputs() && n.ik.userKey == k && maxSeq < n.ik.seqno
    ensures var seen := Newest(Union(p.Before()), k, maxSeq);
            Newest(Union(p.After()), k, maxSeq) == seen <==> (seen.Some? ==> seen.value in Union(p.(output := {}).After()))
  {
    var p' := p.(output := {});
    var S, T' := Union(p.Before()), Union(p'.After());
    LookupBelow(p, lastLevel, watermark, k, maxSeq, n);
    forall r | r in T' ensures r in S {
      OutputOnTop(p, r);
      AfterUnion(p, lastLevel, watermark, r);
    }
    hide Parts.Fits, Parts.After, Parts.Before;
    SubsetUnique(T', S);
    var seen := Newest(S, k, maxSeq);
    if seen.None? {
      NewestNone(T', k, maxSeq);
    } else if seen.value in T' {
      NewestIs(T', k, maxSeq, seen.value);
    }
  }
}
