/** What measuring keeps (`measure` and `normalize` in `src/statevector.rs`), and how a vector is rebuilt elsewhere. */
module SparseMeasure {
  import Angles
  import Registers
  import opened Wrappers
  import opened Controls
  import opened BasisOrder
  import opened Merging
  import opened CompiledGates
  import opened SparseParts
  import opened ChunkWriting

  /** The entries with their amplitudes scaled. */
  function Scaled<V>(s: Part<V>, f: V -> V): (r: Part<V>)
    ensures |r| == |s| && forall i :: 0 <= i < |s| ==> r[i] == Element(s[i].bits, f(s[i].val))
  {
    seq(|s|, i requires 0 <= i < |s| => Element(s[i].bits, f(s[i].val)))
  }

  /** The states that have the measured value, with their amplitudes scaled. */
  ghost function Measured<V>(m: map<Bits, V>, q: Qubit, v: bool, f: V -> V): map<Bits, V> {
    map b | b in m && (q in b) == v :: f(m[b])
  }

  function Kept<V>(p: Part<V>, q: Qubit, v: bool, f: V -> V): Part<V> {
    Scaled(Picked(p, Side(q, v)), f)
  }

  lemma ScaledIn<V>(s: Part<V>, f: V -> V)
    ensures forall e :: e in s ==> Element(e.bits, f(e.val)) in Scaled(s, f)
    ensures forall x :: x in Scaled(s, f) ==> exists e :: e in s && x == Element(e.bits, f(e.val))
  {
    forall e | e in s ensures Element(e.bits, f(e.val)) in Scaled(s, f) {
      var i :| 0 <= i < |s| && s[i] == e;
      assert Scaled(s, f)[i] == Element(e.bits, f(e.val));
    }
    forall x | x in Scaled(s, f) ensures exists e :: e in s && x == Element(e.bits, f(e.val)) {
      var i :| 0 <= i < |s| && Scaled(s, f)[i] == x;
      assert s[i] in s;
    }
  }

  lemma KeptIn<V>(p: Part<V>, q: Qubit, v: bool, f: V -> V)
    ensures forall e :: e in p && (q in e.bits) == v ==> Element(e.bits, f(e.val)) in Kept(p, q, v, f)
    ensures forall x :: x in Kept(p, q, v, f) ==> exists e :: e in p && (q in e.bits) == v && x == Element(e.bits, f(e.val))
  {
    var s := Picked(p, Side(q, v));
    ScaledIn(s, f);
    forall e | e in p && (q in e.bits) == v ensures Element(e.bits, f(e.val)) in Kept(p, q, v, f) {
      PickedIn(p, Side(q, v), e);
    }
    forall x | x in Kept(p, q, v, f) ensures exists e :: e in p && (q in e.bits) == v && x == Element(e.bits, f(e.val)) {
      var e :| e in s && x == Element(e.bits, f(e.val));
      PickedIn(p, Side(q, v), e);
    }
  }

  lemma KeptIncreasing<V>(p: Part<V>, q: Qubit, v: bool, f: V -> V, words: nat)
    requires Increasing(p, Ranked(words))
    ensures Increasing(Kept(p, q, v, f), Ranked(words))
  {
    PickedIncreasing(p, Side(q, v), Ranked(words));
  }

  /** The parts that are left are as good as the parts before. */
  lemma KeptGood<V>(p0: Part<V>, p1: Part<V>, split: Option<Qubit>, q: Qubit, v: bool, f: V -> V, words: nat)
    requires GoodParts(p0, p1, split, words)
    ensures GoodParts(Kept(p0, q, v, f), Kept(p1, q, v, f), split, words)
  {
    KeptIncreasing(p0, q, v, f, words);
    KeptIncreasing(p1, q, v, f, words);
    KeptIn(p0, q, v, f);
    KeptIn(p1, q, v, f);
    hide Kept;
  }

  /** They hold exactly the measured vector. */
  lemma KeptMeaning<V>(p0: Part<V>, p1: Part<V>, split: Option<Qubit>, q: Qubit, v: bool, f: V -> V, words: nat)
    requires GoodParts(p0, p1, split, words)
    ensures Unique(p0 + p1) && Unique(Kept(p0, q, v, f) + Kept(p1, q, v, f))
    ensures Meaning(Kept(p0, q, v, f) + Kept(p1, q, v, f)) == Measured(Meaning(p0 + p1), q, v, f)
  {
    hide *;
    var s, t := p0 + p1, Kept(p0, q, v, f) + Kept(p1, q, v, f);
    GoodUnique(p0, p1, split, words);
    KeptGood(p0, p1, split, q, v, f, words);
    GoodUnique(Kept(p0, q, v, f), Kept(p1, q, v, f), split, words);
    KeptBoth(p0, p1, q, v, f);
    KeptMeasured(t, s, q, v, f);
  }

  lemma KeptBoth<V>(p0: Part<V>, p1: Part<V>, q: Qubit, v: bool, f: V -> V)
    ensures KeptFrom(Kept(p0, q, v, f) + Kept(p1, q, v, f), p0 + p1, q, v, f)
  {
    KeptIn(p0, q, v, f);
    KeptIn(p1, q, v, f);
    hide Kept;
  }

  /** `t` has exactly the scaled entries of `s` with the measured value. */
  ghost predicate KeptFrom<V>(t: Part<V>, s: Part<V>, q: Qubit, v: bool, f: V -> V) {
    && (forall e :: e in s && (q in e.bits) == v ==> Element(e.bits, f(e.val)) in t)
    && (forall x :: x in t ==> exists e :: e in s && (q in e.bits) == v && x == Element(e.bits, f(e.val)))
  }

  lemma KeptMeasured<V>(t: Part<V>, s: Part<V>, q: Qubit, v: bool, f: V -> V)
    requires Unique(s) && Unique(t) && KeptFrom(t, s, q, v, f)
    ensures Meaning(t) == Measured(Meaning(s), q, v, f)
  {
    forall b
      ensures b in Meaning(t) <==> b in Meaning(s) && (q in b) == v
      ensures b in Meaning(t) ==> Meaning(t)[b] == f(Meaning(s)[b]) {
      KeptAt(t, s, q, v, f, b);
    }
    hide Meaning;
  }

  lemma KeptAt<V>(t: Part<V>, s: Part<V>, q: Qubit, v: bool, f: V -> V, b: Bits)
    requires Unique(s) && Unique(t) && KeptFrom(t, s, q, v, f)
    ensures b in Meaning(t) <==> b in Meaning(s) && (q in b) == v
    ensures b in Meaning(t) ==> Meaning(t)[b] == f(Meaning(s)[b])
  {
    MeaningHas(s, b);
    MeaningHas(t, b);
    hide Meaning;
    if b in Meaning(s) && (q in b) == v {
      var e :| e in s && e.bits == b;
      assert Element(e.bits, f(e.val)) in t;
    }
    if b in Meaning(t) {
      var x :| x in t && x.bits == b;
      var e :| e in s && (q in e.bits) == v && x == Element(e.bits, f(e.val));
      assert Meaning(s)[e.bits] == e.val && Meaning(t)[x.bits] == x.val;
    }
  }

  /** A part with nothing to drop is only scaled, and one with everything to drop is emptied. */
  lemma {:induction false} AllPicked<V>(p: Part<V>, q: Qubit, v: bool)
    ensures |Picked(p, Side(q, v))| <= |p|
    ensures |Picked(p, Side(q, v))| == |p| ==> Picked(p, Side(q, v)) == p
    ensures OnSide(p, q, v) ==> Picked(p, Side(q, v)) == p
    ensures OnSide(p, q, !v) ==> Picked(p, Side(q, v)) == []
    decreases |p|
  {
    if p != [] {
      var n := |p| - 1;
      AllPicked(p[..n], q, v);
      assert p == p[..n] + [p[n]];
      assert p[n] in p;
      assert Picked(p, Side(q, v)) == Picked(p[..n], Side(q, v)) + IfOn(p[n], q, v);
    }
  }

  /** Every state with an entry has this value of the qubit. */
  ghost predicate Certain<V>(m: map<Bits, V>, q: Qubit, v: bool) {
    forall b :: b in m ==> (q in b) == v
  }

  /** Nothing is dropped exactly if every state with an entry has the measured value. */
  lemma NothingDropped<V>(p0: Part<V>, p1: Part<V>, q: Qubit, v: bool)
    requires Unique(p0 + p1)
    ensures |Picked(p0, Side(q, v))| + |Picked(p1, Side(q, v))| == |p0| + |p1|
       <==> Certain(Meaning(p0 + p1), q, v)
  {
    AllPicked(p0, q, v);
    AllPicked(p1, q, v);
    MeaningHas(p0 + p1, {});
    hide Meaning;
    if |Picked(p0, Side(q, v))| + |Picked(p1, Side(q, v))| == |p0| + |p1| {
      forall b | b in Meaning(p0 + p1) ensures (q in b) == v {
        MeaningHas(p0 + p1, b);
        var e :| e in p0 + p1 && e.bits == b;
        PickedIn(p0, Side(q, v), e);
        PickedIn(p1, Side(q, v), e);
      }
    }
    if Certain(Meaning(p0 + p1), q, v) {
      forall e | e in p0 + p1 ensures (q in e.bits) == v {
        assert e.bits in Meaning(p0 + p1);
      }
      assert OnSide(p0, q, v) && OnSide(p1, q, v);
    }
  }

  /** What the amplitudes are multiplied by: `normalize` does nothing when the scale is close enough to one. */
  function Factor<V>(skip: bool, scale: V -> V): V -> V {
    if skip then (x: V) => x else scale
  }

  lemma KeptIs<V>(p: Part<V>, q: Qubit, v: bool, skip: bool, scale: V -> V)
    ensures var s := Picked(p, Side(q, v)); Kept(p, q, v, Factor(skip, scale)) == if skip then s else Scaled(s, scale)
  {
    hide Picked;
  }

  /** Moves a slice to the front of the buffer. */
  method MoveToFront<T>(a: array<T>, from: nat, n: nat)
    requires from + n <= a.Length
    modifies a
    ensures a[..n] == old(a[from..from + n])
  {
    for k := 0 to n
      invariant forall i :: 0 <= i < k ==> a[i] == old(a[from + i])
      invariant forall i :: k <= i < a.Length ==> a[i] == old(a[i])
    {
      a[k] := a[from + k];
    }
  }

  /** How many entries have the measured value. */
  method CountValue<V>(q: Qubit, v: bool, c: Part<V>) returns (n: nat)
    ensures n == |Picked(c, Side(q, v))|
  {
    n := CountSet(q, c);
    if !v {
      n := |c| - n;
    }
  }

  /** Copies the entries with the measured value, scaled, into a chunk with exactly the room for them. */
  method MeasureCopy<V>(q: Qubit, v: bool, scale: V -> V, c: Part<V>, out: WriteChunk<Element<V>>)
    requires out.pos + |Picked(c, Side(q, v))| == out.end <= out.buf.Length
    modifies out`pos, out.buf
    ensures Wrote(out.buf[..], old(out.buf[..]), old(out.pos), Kept(c, q, v, scale), 0, [])
  {
    hide Picked, Wrote, Kept;
    ghost var was, a := out.buf[..], out.pos;
    NothingKept(was, a, c, q, v, scale);
    for i := 0 to |c|
      invariant out.pos == a + |Kept(c[..i], q, v, scale)|
      invariant Wrote(out.buf[..], was, a, Kept(c[..i], q, v, scale), 0, [])
    {
      KeptSnoc(c, i, q, v, scale);
      ghost var s := out.buf[..];
      if (q in c[i].bits) == v {
        var x := Element(c[i].bits, scale(c[i].val));
        out.PushUnchecked(x);
        WroteOne(s, out.buf[..], out.pos - 1, x);
        WroteMore(was, s, out.buf[..], a, Kept(c[..i], q, v, scale), 0, [], [x], []);
        ghost var none: Part<V> := [];
        assert none + none == none;
      } else {
        assert Kept(c[..i], q, v, scale) + [] == Kept(c[..i], q, v, scale);
      }
    }
    assert c[..|c|] == c;
  }

  lemma WroteOne<T>(s: seq<T>, t: seq<T>, a: nat, x: T)
    requires a < |s| && t == s[a := x]
    ensures Wrote(t, s, a, [x], 0, [])
  {
  }

  lemma NothingKept<V>(s: seq<Element<V>>, a: nat, c: Part<V>, q: Qubit, v: bool, f: V -> V)
    requires a <= |s|
    ensures Kept(c[..0], q, v, f) == [] && Wrote(s, s, a, [], 0, [])
  {
  }

  lemma KeptSnoc<V>(c: Part<V>, i: nat, q: Qubit, v: bool, f: V -> V)
    requires i < |c|
    ensures Kept(c[..i + 1], q, v, f) ==
      Kept(c[..i], q, v, f) + if (q in c[i].bits) == v then [Element(c[i].bits, f(c[i].val))] else []
    ensures |Kept(c[..i + 1], q, v, f)| <= |Picked(c, Side(q, v))|
  {
    PickedSnoc(c, i, q, v);
    hide Picked;
  }

  /** Where the vector is partitioned by the qubit, the part with the other value is dropped. */
  method DropPart<V>(data: array<Element<V>>, n0: nat, n1: nat, q: Qubit, v: bool) returns (m0: nat, m1: nat)
    requires n0 + n1 <= data.Length && OnSide(data[..n0], q, false) && OnSide(data[n0..n0 + n1], q, true)
    modifies data
    ensures m0 + m1 <= data.Length
    ensures data[..m0] == Picked(old(data[..n0]), Side(q, v))
    ensures data[m0..m0 + m1] == Picked(old(data[n0..n0 + n1]), Side(q, v))
  {
    AllPicked(data[..n0], q, v);
    AllPicked(data[n0..n0 + n1], q, v);
    hide *;
    if v {
      MoveToFront(data, n0, n1);
      m0, m1 := 0, n1;
    } else {
      m0, m1 := n0, 0;
    }
  }

  /** `normalize`: nothing is done when the scale is close enough to one. */
  method Normalize<V>(data: array<Element<V>>, m0: nat, m1: nat, scale: V -> V, nearOne: bool)
    requires m0 + m1 <= data.Length
    modifies data
    ensures data[..m0] == (if nearOne then old(data[..m0]) else Scaled(old(data[..m0]), scale))
    ensures data[m0..m0 + m1] == (if nearOne then old(data[m0..m0 + m1]) else Scaled(old(data[m0..m0 + m1]), scale))
  {
    if nearOne {
      return;
    }
    for i := 0 to m0 + m1
      invariant forall k :: 0 <= k < m0 + m1 ==>
        data[k] == if k < i then Element(old(data[k]).bits, scale(old(data[k]).val)) else old(data[k])
    {
      data[i] := Element(data[i].bits, scale(data[i].val));
    }
  }

  /** The entries with the measured value, scaled, in a buffer of their own. */
  method CopyKept<V(0)>(c0: Part<V>, c1: Part<V>, q: Qubit, v: bool, scale: V -> V, m0: nat, m1: nat) returns (buf: array<Element<V>>)
    requires m0 == |Picked(c0, Side(q, v))| && m1 == |Picked(c1, Side(q, v))|
    ensures fresh(buf) && buf.Length == m0 + m1
    ensures buf[..m0] == Scaled(Picked(c0, Side(q, v)), scale) && buf[m0..m0 + m1] == Scaled(Picked(c1, Side(q, v)), scale)
  {
    hide Picked;
    buf := new Element<V>[m0 + m1];
    var out0 := new WriteChunk(buf, 0, m0);
    MeasureCopy(q, v, scale, c0, out0);
    ghost var s := buf[..];
    assert s[..m0] == Kept(c0, q, v, scale);
    var out1 := new WriteChunk(buf, m0, m0 + m1);
    MeasureCopy(q, v, scale, c1, out1);
    assert buf[..m0] == s[..m0] && buf[m0..m0 + m1] == Kept(c1, q, v, scale);
  }

  /** The three ways of keeping only the measured value: dropping a part, scaling in place, copying. */
  method KeepMeasured<V(0)>(data: array<Element<V>>, n0: nat, n1: nat, isSplit: bool, q: Qubit, v: bool, scale: V -> V,
                            nearOne: bool, ghost kept: bool)
    returns (out: array<Element<V>>, m0: nat, m1: nat)
    requires n0 + n1 <= data.Length
    requires isSplit ==> OnSide(data[..n0], q, false) && OnSide(data[n0..n0 + n1], q, true)
    requires kept <==> isSplit || |Picked(data[..n0], Side(q, v))| + |Picked(data[n0..n0 + n1], Side(q, v))| == n0 + n1
    modifies data
    ensures (out == data || fresh(out)) && m0 + m1 <= out.Length
    ensures var s0, s1 := Picked(old(data[..n0]), Side(q, v)), Picked(old(data[n0..n0 + n1]), Side(q, v));
      && out[..m0] == (if nearOne && kept then s0 else Scaled(s0, scale))
      && out[m0..m0 + m1] == (if nearOne && kept then s1 else Scaled(s1, scale))
  {
    hide *;
    if isSplit {
      out := data;
      m0, m1 := KeepSplit(data, n0, n1, q, v, scale, nearOne);
    } else {
      out, m0, m1 := KeepUnsplit(data, n0, n1, q, v, scale, nearOne);
    }
  }

  method KeepSplit<V>(data: array<Element<V>>, n0: nat, n1: nat, q: Qubit, v: bool, scale: V -> V, nearOne: bool)
    returns (m0: nat, m1: nat)
    requires n0 + n1 <= data.Length && OnSide(data[..n0], q, false) && OnSide(data[n0..n0 + n1], q, true)
    modifies data
    ensures m0 + m1 <= data.Length
    ensures var s0, s1 := Picked(old(data[..n0]), Side(q, v)), Picked(old(data[n0..n0 + n1]), Side(q, v));
      && data[..m0] == (if nearOne then s0 else Scaled(s0, scale))
      && data[m0..m0 + m1] == (if nearOne then s1 else Scaled(s1, scale))
  {
    hide *;
    m0, m1 := DropPart(data, n0, n1, q, v);
    Normalize(data, m0, m1, scale, nearOne);
  }

  method KeepUnsplit<V(0)>(data: array<Element<V>>, n0: nat, n1: nat, q: Qubit, v: bool, scale: V -> V, nearOne: bool)
    returns (out: array<Element<V>>, m0: nat, m1: nat)
    requires n0 + n1 <= data.Length
    modifies data
    ensures (out == data || fresh(out)) && m0 + m1 <= out.Length
    ensures var s0, s1 := Picked(old(data[..n0]), Side(q, v)), Picked(old(data[n0..n0 + n1]), Side(q, v));
      var skip := nearOne && |s0| + |s1| == n0 + n1;
      && out[..m0] == (if skip then s0 else Scaled(s0, scale))
      && out[m0..m0 + m1] == (if skip then s1 else Scaled(s1, scale))
  {
    hide *;
    var p0, p1 := data[..n0], data[n0..n0 + n1];
    m0 := CountValue(q, v, p0);
    m1 := CountValue(q, v, p1);
    if m0 + m1 == n0 + n1 {
      AllPicked(p0, q, v);
      AllPicked(p1, q, v);
      Normalize(data, n0, n1, scale, nearOne);
      out, m0, m1 := data, n0, n1;
    } else {
      out := CopyKept(p0, p1, q, v, scale, m0, m1);
    }
  }

  /** The vector after a measurement. */
  lemma MeasureVector<V>(p0: Part<V>, p1: Part<V>, split: Option<Qubit>, q: Qubit, v: bool, skip: bool, scale: V -> V, words: nat)
    requires GoodParts(p0, p1, split, words)
    ensures var s0, s1 := Picked(p0, Side(q, v)), Picked(p1, Side(q, v));
      var t0, t1 := if skip then s0 else Scaled(s0, scale), if skip then s1 else Scaled(s1, scale);
      GoodParts(t0, t1, split, words) && Vector(t0, t1) == Measured(Vector(p0, p1), q, v, Factor(skip, scale))
  {
    hide *;
    var f := Factor(skip, scale);
    KeptIs(p0, q, v, skip, scale);
    KeptIs(p1, q, v, skip, scale);
    KeptGood(p0, p1, split, q, v, f, words);
    KeptMeaning(p0, p1, split, q, v, f, words);
    VectorIs(p0, p1, split, words);
    VectorIs(Kept(p0, q, v, f), Kept(p1, q, v, f), split, words);
  }

  lemma DroppedVector<V>(p0: Part<V>, p1: Part<V>, split: Option<Qubit>, q: Qubit, v: bool, words: nat)
    requires GoodParts(p0, p1, split, words)
    ensures |Picked(p0, Side(q, v))| + |Picked(p1, Side(q, v))| == |p0| + |p1| <==> Certain(Vector(p0, p1), q, v)
    ensures split == Some(q) ==> OnSide(p0, q, false) && OnSide(p1, q, true)
  {
    VectorIs(p0, p1, split, words);
    hide Vector, Certain;
    NothingDropped(p0, p1, q, v);
  }

  // Widening

  /** With more words the ranks of states that fit into fewer grow by one factor. */
  lemma NothingBeyond(b: Bits, m: nat, n: nat)
    requires m <= n && Fits(b, m)
    ensures Registers.Val(b, From(m, n)) == 0 == Registers.Val(b, From(m, m))
  {
    FromHas(m, n);
    NothingSet(b, From(m, n));
  }

  lemma {:induction false} RankWidens(b: Bits, k: nat, m: nat, n: nat)
    requires k <= m <= n && Fits(b, m)
    ensures Registers.Val(b, From(k, n)) == Angles.Pow2(WORD * (n - m)) * Registers.Val(b, From(k, m))
    decreases m - k
  {
    var p := Angles.Pow2(WORD * (n - m));
    if k == m {
      NothingBeyond(b, m, n);
    } else {
      RankWidens(b, k + 1, m, n);
      RankFrom(b, k, m);
      RankFrom(b, k, n);
      Registers.Pow2Add(WORD * (n - m), WORD * (m - k - 1));
      assert WORD * (n - m) + WORD * (m - k - 1) == WORD * (n - k - 1);
      hide *;
      Factor3(p, Registers.Val(b, From(k + 1, m)), Angles.Pow2(WORD * (m - k - 1)), WordVal(b, k));
    }
  }

  lemma Factor3(p: nat, x: nat, y: nat, z: nat)
    ensures p * x + p * y * z == p * (x + y * z)
  {
    Registers.Associate(p, y, z);
    Spread(p, x, y * z);
  }

  lemma WideOrder(b: Bits, c: Bits, m: nat, n: nat)
    requires m <= n && Fits(b, m) && Fits(c, m)
    ensures Rank(b, m) < Rank(c, m) <==> Rank(b, n) < Rank(c, n)
  {
    RankWidens(b, 0, m, n);
    RankWidens(c, 0, m, n);
    var p, x, y := Angles.Pow2(WORD * (n - m)), Rank(b, m), Rank(c, m);
    assert Rank(b, n) == p * x && Rank(c, n) == p * y;
    hide *;
    if x <= y {
      ScaleOrder(p, x, y);
    } else {
      ScaleOrder(p, y, x);
    }
  }

  lemma ScaleOrder(p: nat, x: nat, y: nat)
    requires p > 0 && x <= y
    ensures p * x <= p * y && (x < y ==> p * x < p * y)
  {
    Registers.MulLe(p, x, y);
    if x < y {
      Registers.MulLe(p, x + 1, y);
      Spread(p, x, 1);
    }
  }

  /** Parts whose states fit are as good with any number of words. */
  lemma GoodWords<V>(p0: Part<V>, p1: Part<V>, split: Option<Qubit>, m: nat, n: nat)
    requires GoodParts(p0, p1, split, m) && AllFit(p0, n) && AllFit(p1, n) && (split.Some? ==> split.value < WORD * n)
    ensures GoodParts(p0, p1, split, n)
  {
    IncreasingWords(p0, m, n);
    IncreasingWords(p1, m, n);
  }

  lemma IncreasingWords<V>(p: Part<V>, m: nat, n: nat)
    requires Increasing(p, Ranked(m)) && AllFit(p, m) && AllFit(p, n)
    ensures Increasing(p, Ranked(n))
  {
    forall i, j | 0 <= i < j < |p| ensures Ranked<V>(n)(p[i]) < Ranked<V>(n)(p[j]) {
      assert p[i] in p && p[j] in p && Ranked<V>(m)(p[i]) < Ranked<V>(m)(p[j]);
      if m <= n {
        WideOrder(p[i].bits, p[j].bits, m, n);
      } else {
        WideOrder(p[i].bits, p[j].bits, n, m);
      }
    }
  }

  // Dense vectors

  /** The entries of the first `n` amplitudes of a dense vector, in order. */
  function DenseEntries<V>(vals: seq<V>, want: V -> bool, n: nat): Part<V>
    requires n <= |vals|
  {
    if n == 0 then []
    else DenseEntries(vals, want, n - 1) + if want(vals[n - 1]) then [Element(FromIndex(n - 1), vals[n - 1])] else []
  }

  lemma {:induction false} DenseIn<V>(vals: seq<V>, want: V -> bool, n: nat, e: Element<V>)
    requires n <= |vals|
    ensures e in DenseEntries(vals, want, n) <==> exists i: nat :: i < n && want(vals[i]) && e == Element(FromIndex(i), vals[i])
    decreases n
  {
    hide FromIndex;
    if n > 0 {
      DenseIn(vals, want, n - 1, e);
    }
  }

  lemma {:induction false} DenseGood<V>(vals: seq<V>, want: V -> bool, n: nat, words: nat)
    requires n <= |vals| <= Angles.Pow2(WORD) && words > 0
    ensures Increasing(DenseEntries(vals, want, n), Ranked(words)) && AllFit(DenseEntries(vals, want, n), words)
    decreases n
  {
    hide FromIndex, Angles.Pow2;
    if n > 0 {
      DenseGood(vals, want, n - 1, words);
      FromIndexRank(n - 1, words);
      hide Rank, Fits;
      forall e | e in DenseEntries(vals, want, n - 1) ensures Rank(e.bits, words) < Rank(FromIndex(n - 1), words) {
        DenseIn(vals, want, n - 1, e);
        var i: nat :| i < n - 1 && want(vals[i]) && e == Element(FromIndex(i), vals[i]);
        IndexOrder(i, n - 1, words);
      }
    }
  }

  lemma IndexOrder(i: nat, j: nat, words: nat)
    requires i < j < Angles.Pow2(WORD) && words > 0
    ensures Rank(FromIndex(i), words) < Rank(FromIndex(j), words)
  {
    FromIndexRank(i, words);
    FromIndexRank(j, words);
    ScaleOrder(Angles.Pow2(WORD * (words - 1)), i, j);
  }
}
