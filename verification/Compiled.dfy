/**
 Compiled gates (`src/sfree/gates.rs`, `src/sfree/compiler.rs`): what a compiled tree means for
 one element, and the in-place run over a slice of elements.
 */
module CompiledGates {
  import opened Angles
  import opened Controls
  import opened Partition

  // Single gates

  datatype Gate =
    | X(q: Qubit)
    | Swap(q1: Qubit, q2: Qubit)
    | P(a: Angle) | Pt | Ps | Pt3 | Pz | Pt5 | Psdg | Ptdg
    | MultiX(qs: set<Qubit>)
    | SinglyControlled(v: bool, ctl1: Qubit, inner1: Gate)
    | MultiControlled(ctl: Control, inner: Gate)

  /** The two masks `MultiControlled` is prepared into. */
  function Mask(ctl: Control): Bits {
    set i | 0 <= i < |ctl| :: ctl[i].qubit
  }

  function Want(ctl: Control): Bits {
    set i | 0 <= i < |ctl| && ctl[i].value :: ctl[i].qubit
  }

  function GateBits(g: Gate, b: Bits): Bits {
    match g
    case X(q) => Flip(b, {q})
    case Swap(q1, q2) => if (q1 in b) != (q2 in b) then Flip(Flip(b, {q1}), {q2}) else b
    case MultiX(qs) => Flip(b, qs)
    case SinglyControlled(v, q, g1) => if (q in b) != v then b else GateBits(g1, b)
    case MultiControlled(c, g1) => if b * Mask(c) != Want(c) then b else GateBits(g1, b)
    case _ => b
  }

  /** The phases a gate multiplies into the value, in order. */
  function GatePhases(g: Gate, b: Bits): seq<Angle> {
    match g
    case X(_) => []
    case Swap(_, _) => []
    case MultiX(_) => []
    case P(a) => [a]
    case Pt => [PI_1_4]
    case Ps => [PI_1_2]
    case Pt3 => [PI_3_4]
    case Pz => [PI]
    case Pt5 => [PI_5_4]
    case Psdg => [PI_3_2]
    case Ptdg => [PI_7_4]
    case SinglyControlled(v, q, g1) => if (q in b) != v then [] else GatePhases(g1, b)
    case MultiControlled(c, g1) => if b * Mask(c) != Want(c) then [] else GatePhases(g1, b)
  }

  function GateWrites(g: Gate): set<Qubit> {
    match g
    case X(q) => {q}
    case Swap(q1, q2) => {q1, q2}
    case MultiX(qs) => qs
    case SinglyControlled(_, _, g1) => GateWrites(g1)
    case MultiControlled(_, g1) => GateWrites(g1)
    case _ => {}
  }

  lemma {:induction false} GateKeepsOthers(g: Gate, b: Bits, q: Qubit)
    requires q !in GateWrites(g)
    ensures q in GateBits(g, b) <==> q in b
  {
    match g
    case SinglyControlled(_, _, g1) => GateKeepsOthers(g1, b, q);
    case MultiControlled(_, g1) => GateKeepsOthers(g1, b, q);
    case _ =>
  }

  /** The mask comparison of `MultiControlled` decides the control. */
  lemma MaskMeansHolds(c: Control, b: Bits)
    requires ValidControl(c)
    ensures b * Mask(c) == Want(c) <==> Holds(c, b)
  {
    if Holds(c, b) {
      forall q ensures q in b * Mask(c) <==> q in Want(c) {
        if q in b * Mask(c) {
          var i :| 0 <= i < |c| && c[i].qubit == q;
          assert c[i].value;
        }
        if q in Want(c) {
          var i :| 0 <= i < |c| && c[i].value && c[i].qubit == q;
        }
      }
    }
    if b * Mask(c) == Want(c) {
      forall i | 0 <= i < |c| ensures (c[i].qubit in b) == c[i].value {
        assert c[i].qubit in Mask(c);
        assert c[i].value ==> c[i].qubit in Want(c);
        if c[i].qubit in b {
          assert c[i].qubit in Want(c);
          var j :| 0 <= j < |c| && c[j].value && c[j].qubit == c[i].qubit;
          assert i == j;
        }
      }
    }
  }

  // Compiled trees

  datatype Compiled =
    | FromGate(g: Gate)
    | FromSeq(seqs: seq<Compiled>)
    | FromPseq(q: Qubit, seq0: seq<Compiled>, seq1: seq<Compiled>)

  function Bits1(c: Compiled, b: Bits): Bits
    decreases c, 0
  {
    match c
    case FromGate(g) => GateBits(g, b)
    case FromSeq(s) => BitsAll(s, b)
    case FromPseq(q, s0, s1) => if q !in b then BitsAll(s0, b) else BitsAll(s1, b)
  }

  function BitsAll(s: seq<Compiled>, b: Bits): Bits
    decreases s, 1
  {
    if s == [] then b else Bits1(s[|s| - 1], BitsAll(s[..|s| - 1], b))
  }

  function Phases1(c: Compiled, b: Bits): seq<Angle>
    decreases c, 0
  {
    match c
    case FromGate(g) => GatePhases(g, b)
    case FromSeq(s) => PhasesAll(s, b)
    case FromPseq(q, s0, s1) => if q !in b then PhasesAll(s0, b) else PhasesAll(s1, b)
  }

  function PhasesAll(s: seq<Compiled>, b: Bits): seq<Angle>
    decreases s, 1
  {
    if s == [] then []
    else PhasesAll(s[..|s| - 1], b) + Phases1(s[|s| - 1], BitsAll(s[..|s| - 1], b))
  }

  /** The qubits some gate of the tree writes. */
  function Writes1(c: Compiled): set<Qubit>
    decreases c, 0
  {
    match c
    case FromGate(g) => GateWrites(g)
    case FromSeq(s) => WritesAll(s)
    case FromPseq(_, s0, s1) => WritesAll(s0) + WritesAll(s1)
  }

  function WritesAll(s: seq<Compiled>): set<Qubit>
    decreases s, 1
  {
    if s == [] then {} else WritesAll(s[..|s| - 1]) + Writes1(s[|s| - 1])
  }

  /** Some node of the tree partitions the slice, and so changes the order. */
  predicate Splits1(c: Compiled)
    decreases c, 0
  {
    match c
    case FromGate(_) => false
    case FromSeq(s) => SplitsAny(s)
    case FromPseq(_, _, _) => true
  }

  predicate SplitsAny(s: seq<Compiled>)
    decreases s, 1
  {
    s != [] && (SplitsAny(s[..|s| - 1]) || Splits1(s[|s| - 1]))
  }

  /** The number of gates in the tree. */
  function Gates1(c: Compiled): nat
    decreases c, 0
  {
    match c
    case FromGate(_) => 1
    case FromSeq(s) => GatesAll(s)
    case FromPseq(_, s0, s1) => GatesAll(s0) + GatesAll(s1)
  }

  function GatesAll(s: seq<Compiled>): nat
    decreases s, 1
  {
    if s == [] then 0 else GatesAll(s[..|s| - 1]) + Gates1(s[|s| - 1])
  }

  lemma AllSnoc(s: seq<Compiled>, c: Compiled)
    ensures forall b :: BitsAll(s + [c], b) == Bits1(c, BitsAll(s, b))
    ensures forall b :: PhasesAll(s + [c], b) == PhasesAll(s, b) + Phases1(c, BitsAll(s, b))
    ensures WritesAll(s + [c]) == WritesAll(s) + Writes1(c)
    ensures SplitsAny(s + [c]) <==> SplitsAny(s) || Splits1(c)
    ensures GatesAll(s + [c]) == GatesAll(s) + Gates1(c)
  {
    assert (s + [c])[..|s|] == s;
  }

  /** A tree changes no bit outside of the qubits it writes. */
  lemma {:induction false} TreeKeepsOthers(c: Compiled, b: Bits, q: Qubit)
    requires q !in Writes1(c)
    ensures q in Bits1(c, b) <==> q in b
    decreases c, 0
  {
    match c
    case FromGate(g) => GateKeepsOthers(g, b, q);
    case FromSeq(s) => SeqKeepsOthers(s, b, q);
    case FromPseq(p, s0, s1) => if p !in b { SeqKeepsOthers(s0, b, q); } else { SeqKeepsOthers(s1, b, q); }
  }

  lemma {:induction false} SeqKeepsOthers(s: seq<Compiled>, b: Bits, q: Qubit)
    requires q !in WritesAll(s)
    ensures q in BitsAll(s, b) <==> q in b
    decreases s, 1
  {
    if s != [] {
      SeqKeepsOthers(s[..|s| - 1], b, q);
      TreeKeepsOthers(s[|s| - 1], BitsAll(s[..|s| - 1], b), q);
    }
  }

  // Elements and slices

  /** One entry of the state vector. The value type is left open: `Rot` says how a phase acts on it. */
  datatype Element<V> = Element(bits: Bits, val: V)

  type Rot<!V> = (Angle, V) -> V

  /** The phases applied to the value one after the other. */
  function Rotate<V>(rot: Rot<V>, phases: seq<Angle>, v: V): V {
    if phases == [] then v else rot(phases[|phases| - 1], Rotate(rot, phases[..|phases| - 1], v))
  }

  function Apply1<V>(c: Compiled, rot: Rot<V>, e: Element<V>): Element<V> {
    Element(Bits1(c, e.bits), Rotate(rot, Phases1(c, e.bits), e.val))
  }

  function ApplyAll<V>(s: seq<Compiled>, rot: Rot<V>, e: Element<V>): Element<V> {
    Element(BitsAll(s, e.bits), Rotate(rot, PhasesAll(s, e.bits), e.val))
  }

  lemma {:induction false} RotateConcat<V>(rot: Rot<V>, s: seq<Angle>, t: seq<Angle>, v: V)
    ensures Rotate(rot, s + t, v) == Rotate(rot, t, Rotate(rot, s, v))
    decreases |t|
  {
    if t == [] {
      assert s + t == s;
    } else {
      var u := t[..|t| - 1];
      assert (s + t)[..|s + t| - 1] == s + u;
      RotateConcat(rot, s, u, v);
    }
  }

  /** Running one more compiled gate after a sequence. */
  lemma ApplySnoc<V>(s: seq<Compiled>, c: Compiled, rot: Rot<V>, e: Element<V>)
    ensures ApplyAll(s + [c], rot, e) == Apply1(c, rot, ApplyAll(s, rot, e))
  {
    AllSnoc(s, c);
    RotateConcat(rot, PhasesAll(s, e.bits), Phases1(c, BitsAll(s, e.bits)), e.val);
  }

  /** Every element of a slice run through a sequence of compiled gates. */
  function MapAll<V>(l: seq<Compiled>, rot: Rot<V>, s: seq<Element<V>>): (r: seq<Element<V>>)
    ensures |r| == |s|
    ensures forall i :: 0 <= i < |s| ==> r[i] == ApplyAll(l, rot, s[i])
  {
    seq(|s|, i requires 0 <= i < |s| => ApplyAll(l, rot, s[i]))
  }

  lemma ApplyOne<V>(c: Compiled, rot: Rot<V>, e: Element<V>)
    ensures ApplyAll([c], rot, e) == Apply1(c, rot, e)
  {
    hide Bits1, Phases1;
    assert [c][..0] == [];
    assert PhasesAll([c], e.bits) == [] + Phases1(c, e.bits) == Phases1(c, e.bits);
  }

  /** Taking the same element out of two permuted slices. */
  lemma PermutedWithout<T>(s: seq<T>, t: seq<T>) returns (j: nat)
    requires Permuted(s, t) && s != []
    ensures j < |t| && t[j] == s[|s| - 1] && Permuted(s[..|s| - 1], t[..j] + t[j + 1..])
  {
    var n := |s| - 1;
    assert s == s[..n] + [s[n]];
    assert s[n] in multiset(t);
    j :| 0 <= j < |t| && t[j] == s[n];
    assert t == t[..j] + [t[j]] + t[j + 1..];
    calc {
      multiset(s[..n]);
      multiset(s) - multiset{s[n]};
      multiset(t) - multiset{t[j]};
      multiset(t[..j]) + multiset(t[j + 1..]);
      multiset(t[..j] + t[j + 1..]);
    }
  }

  /** Putting the same element back. */
  lemma PermutedWith<T>(s: seq<T>, t: seq<T>, j: nat, x: T)
    requires j <= |t| && Permuted(s, t)
    ensures Permuted(s + [x], t[..j] + [x] + t[j..])
  {
    assert t == t[..j] + t[j..];
  }

  /** Permuting the elements first permutes the results. */
  lemma {:induction false} PermutedMap<V>(l: seq<Compiled>, rot: Rot<V>, s: seq<Element<V>>, t: seq<Element<V>>)
    requires Permuted(s, t)
    ensures Permuted(MapAll(l, rot, s), MapAll(l, rot, t))
    decreases |s|
  {
    hide Permuted;
    if s == [] {
      EmptyPermuted(s, t);
      PermutedRefl(MapAll(l, rot, s), MapAll(l, rot, t));
    } else {
      var n := |s| - 1;
      var j := PermutedWithout(s, t);
      var u := t[..j] + t[j + 1..];
      PermutedMap(l, rot, s[..n], u);
      PermutedWith(MapAll(l, rot, s[..n]), MapAll(l, rot, u), j, ApplyAll(l, rot, s[n]));
      assert MapAll(l, rot, s) == MapAll(l, rot, s[..n]) + [ApplyAll(l, rot, s[n])];
      assert MapAll(l, rot, t) == MapAll(l, rot, u)[..j] + [ApplyAll(l, rot, s[n])] + MapAll(l, rot, u)[j..];
    }
  }

  lemma EmptyPermuted<T>(s: seq<T>, t: seq<T>)
    requires s == [] && Permuted(s, t)
    ensures t == []
  {
    assert |multiset(t)| == |multiset(s)|;
  }

  lemma PermutedConcat<T>(s: seq<T>, t: seq<T>, s': seq<T>, t': seq<T>)
    requires Permuted(s, s') && Permuted(t, t')
    ensures Permuted(s + t, s' + t')
  {
  }

  /** A slice has been run through `l`: the same results, in the same order unless some node splits. */
  ghost predicate Ran<V>(l: seq<Compiled>, rot: Rot<V>, before: seq<Element<V>>, after: seq<Element<V>>) {
    && Permuted(after, MapAll(l, rot, before))
    && (!SplitsAny(l) ==> after == MapAll(l, rot, before))
  }

  lemma RanNext<V>(l: seq<Compiled>, c: Compiled, rot: Rot<V>, s: seq<Element<V>>, t: seq<Element<V>>, u: seq<Element<V>>)
    requires Ran(l, rot, s, t) && Ran([c], rot, t, u)
    ensures Ran(l + [c], rot, s, u)
  {
    forall i | 0 <= i < |s| ensures MapAll(l + [c], rot, s)[i] == MapAll([c], rot, MapAll(l, rot, s))[i] {
      ApplySnoc(l, c, rot, s[i]);
      ApplyOne(c, rot, ApplyAll(l, rot, s[i]));
    }
    assert MapAll(l + [c], rot, s) == MapAll([c], rot, MapAll(l, rot, s));
    PermutedMap([c], rot, t, MapAll(l, rot, s));
    PermutedTrans(u, MapAll([c], rot, t), MapAll(l + [c], rot, s));
    AllSnoc(l, c);
    AllSnoc([], c);
    assert [] + [c] == [c];
  }

  lemma RanNone<V>(rot: Rot<V>, s: seq<Element<V>>)
    ensures Ran([], rot, s, s)
  {
    assert MapAll([], rot, s) == s;
  }

  /** Where the splitting qubit is known, the split is one of its branches. */
  lemma MapBranch<V>(q: Qubit, s0: seq<Compiled>, s1: seq<Compiled>, rot: Rot<V>, s: seq<Element<V>>, v: bool)
    requires forall i :: 0 <= i < |s| ==> (q in s[i].bits) == v
    ensures MapAll([FromPseq(q, s0, s1)], rot, s) == MapAll(if v then s1 else s0, rot, s)
  {
    forall i | 0 <= i < |s|
      ensures ApplyAll([FromPseq(q, s0, s1)], rot, s[i]) == ApplyAll(if v then s1 else s0, rot, s[i]) {
      ApplyOne(FromPseq(q, s0, s1), rot, s[i]);
    }
  }

  /** The two halves of a partitioned slice, each run through its branch. */
  lemma RanSplit<V>(q: Qubit, s0: seq<Compiled>, s1: seq<Compiled>, rot: Rot<V>, was: seq<Element<V>>,
                    left: seq<Element<V>>, right: seq<Element<V>>, left': seq<Element<V>>, right': seq<Element<V>>)
    requires Permuted(left + right, was)
    requires forall i :: 0 <= i < |left| ==> q !in left[i].bits
    requires forall i :: 0 <= i < |right| ==> q in right[i].bits
    requires Ran(s0, rot, left, left') && Ran(s1, rot, right, right')
    ensures Ran([FromPseq(q, s0, s1)], rot, was, left' + right')
  {
    hide Permuted, ApplyAll, SplitsAny;
    var c := FromPseq(q, s0, s1);
    MapBranch(q, s0, s1, rot, left, false);
    MapBranch(q, s0, s1, rot, right, true);
    assert MapAll([c], rot, left + right) == MapAll([c], rot, left) + MapAll([c], rot, right);
    PermutedConcat(left', right', MapAll(s0, rot, left), MapAll(s1, rot, right));
    PermutedMap([c], rot, left + right, was);
    PermutedTrans(left' + right', MapAll([c], rot, left + right), MapAll([c], rot, was));
    SplitSplits(q, s0, s1);
  }

  lemma SplitSplits(q: Qubit, s0: seq<Compiled>, s1: seq<Compiled>)
    ensures SplitsAny([FromPseq(q, s0, s1)])
  {
  }

  /** Run one compiled gate over the slice a[lo..hi], in place. */
  method Perform<V>(c: Compiled, rot: Rot<V>, a: array<Element<V>>, lo: nat, hi: nat)
    requires lo <= hi <= a.Length
    modifies a
    ensures OnlySlice(a, lo, hi)
    ensures Ran([c], rot, old(a[lo..hi]), a[lo..hi])
    decreases c, 2
  {
    hide Ran;
    ghost var was := a[lo..hi];
    match c
    case FromGate(g) =>
      PerformGate(g, rot, a, lo, hi);
    case FromSeq(s) =>
      PerformAll(s, rot, a, lo, hi);
      RanWrapped(s, rot, was, a[lo..hi]);
    case FromPseq(q, s0, s1) =>
      PerformSplit(q, s0, s1, rot, a, lo, hi);
  }

  /** Partition the slice on qubit `q`, then run each part through its branch. */
  method PerformSplit<V>(q: Qubit, s0: seq<Compiled>, s1: seq<Compiled>, rot: Rot<V>, a: array<Element<V>>, lo: nat, hi: nat)
    requires lo <= hi <= a.Length
    modifies a
    ensures OnlySlice(a, lo, hi)
    ensures Ran([FromPseq(q, s0, s1)], rot, old(a[lo..hi]), a[lo..hi])
    decreases FromPseq(q, s0, s1), 0
  {
    hide Ran, Permuted;
    ghost var was := a[lo..hi];
    var n := PartitionBy(a, lo, hi, (e: Element<V>) => q !in e.bits);
    ghost var left, right := a[lo..lo + n], a[lo + n..hi];
    assert left + right == a[lo..hi];
    if n > 0 {
      PerformAll(s0, rot, a, lo, lo + n);
    } else {
      RanEmpty(s0, rot);
    }
    assert a[lo + n..hi] == right;
    ghost var left' := a[lo..lo + n];
    if lo + n < hi {
      PerformAll(s1, rot, a, lo + n, hi);
    } else {
      RanEmpty(s1, rot);
    }
    assert a[lo..lo + n] == left';
    assert a[lo..hi] == left' + a[lo + n..hi];
    RanSplit(q, s0, s1, rot, was, left, right, left', a[lo + n..hi]);
  }

  lemma RanEmpty<V>(l: seq<Compiled>, rot: Rot<V>)
    ensures Ran(l, rot, [], [])
  {
    assert MapAll(l, rot, []) == [];
  }

  lemma RanWrapped<V>(l: seq<Compiled>, rot: Rot<V>, s: seq<Element<V>>, t: seq<Element<V>>)
    requires Ran(l, rot, s, t)
    ensures Ran([FromSeq(l)], rot, s, t)
  {
    forall i | 0 <= i < |s| ensures ApplyAll([FromSeq(l)], rot, s[i]) == ApplyAll(l, rot, s[i]) {
      ApplyOne(FromSeq(l), rot, s[i]);
    }
    assert MapAll([FromSeq(l)], rot, s) == MapAll(l, rot, s);
    AllSnoc([], FromSeq(l));
    assert [] + [FromSeq(l)] == [FromSeq(l)];
  }

  method PerformGate<V>(g: Gate, rot: Rot<V>, a: array<Element<V>>, lo: nat, hi: nat)
    requires lo <= hi <= a.Length
    modifies a
    ensures OnlySlice(a, lo, hi)
    ensures Ran([FromGate(g)], rot, old(a[lo..hi]), a[lo..hi])
  {
    ghost var was := a[lo..hi];
    for i := lo to hi
      invariant OnlySlice(a, lo, hi)
      invariant forall k :: lo <= k < hi ==>
        a[k] == if k < i then Apply1(FromGate(g), rot, old(a[k])) else old(a[k])
    {
      a[i] := Element(GateBits(g, a[i].bits), Rotate(rot, GatePhases(g, a[i].bits), a[i].val));
    }
    forall k | 0 <= k < hi - lo ensures a[lo..hi][k] == MapAll([FromGate(g)], rot, was)[k] {
      ApplyOne(FromGate(g), rot, was[k]);
    }
    assert a[lo..hi] == MapAll([FromGate(g)], rot, was);
  }

  method PerformAll<V>(s: seq<Compiled>, rot: Rot<V>, a: array<Element<V>>, lo: nat, hi: nat)
    requires lo <= hi <= a.Length
    modifies a
    ensures OnlySlice(a, lo, hi)
    ensures Ran(s, rot, old(a[lo..hi]), a[lo..hi])
    decreases s, 1
  {
    hide Ran;
    RanNone(rot, a[lo..hi]);
    for i := 0 to |s|
      invariant OnlySlice(a, lo, hi)
      invariant Ran(s[..i], rot, old(a[lo..hi]), a[lo..hi])
    {
      ghost var t := a[lo..hi];
      Perform(s[i], rot, a, lo, hi);
      RanNext(s[..i], s[i], rot, old(a[lo..hi]), t, a[lo..hi]);
      assert s[..i + 1] == s[..i] + [s[i]];
    }
    assert s[..|s|] == s;
  }
}
