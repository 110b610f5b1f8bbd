/**
 Output chunks (`src/buffer.rs`) and the two passes over pairs of chunks (`src/statevector.rs`): the first
 pass counts what the second one will write, so the second one writes through unchecked pointers.
 */
module ChunkWriting {
  import opened Controls
  import opened Merging
  import opened CompiledGates
  import opened SparseParts

  /** `xs` stands in `s` from position `a` on. */
  ghost predicate Placed<T>(s: seq<T>, a: nat, xs: seq<T>) {
    a + |xs| <= |s| && forall i :: a <= i < a + |xs| ==> s[i] == xs[i - a]
  }

  /** From `was` to `s`, `xs` has been written from `a` on, `ys` from `b` on, and nothing else. */
  ghost predicate Wrote<T>(s: seq<T>, was: seq<T>, a: nat, xs: seq<T>, b: nat, ys: seq<T>) {
    && |s| == |was| && Placed(s, a, xs) && Placed(s, b, ys)
    && (forall i :: 0 <= i < |s| && !(a <= i < a + |xs|) && !(b <= i < b + |ys|) ==> s[i] == was[i])
  }

  predicate Disjoint(a: nat, n: nat, b: nat, m: nat) {
    a + n <= b || b + m <= a
  }

  lemma WroteMore<T>(s: seq<T>, t: seq<T>, u: seq<T>, a: nat, xs: seq<T>, b: nat, ys: seq<T>, xs': seq<T>, ys': seq<T>)
    requires Wrote(t, s, a, xs, b, ys) && Wrote(u, t, a + |xs|, xs', b + |ys|, ys')
    requires Disjoint(a, |xs| + |xs'|, b, |ys| + |ys'|)
    ensures Wrote(u, s, a, xs + xs', b, ys + ys')
  {
    forall i | a <= i < a + |xs + xs'| ensures u[i] == (xs + xs')[i - a] {
      if i < a + |xs| {
        assert u[i] == t[i];
      }
    }
    forall i | b <= i < b + |ys + ys'| ensures u[i] == (ys + ys')[i - b] {
      if i < b + |ys| {
        assert u[i] == t[i];
      }
    }
  }

  /** A chunk of the output buffer, filled from the front. Pushing is not checked against its end. */
  class WriteChunk<T> {
    const buf: array<T>
    const end: nat
    var pos: nat

    constructor (buf: array<T>, pos: nat, end: nat)
      ensures this.buf == buf && this.pos == pos && this.end == end
    {
      this.buf, this.pos, this.end := buf, pos, end;
    }

    method PushUnchecked(x: T)
      requires pos < end <= buf.Length
      modifies this`pos, buf
      ensures pos == old(pos) + 1
      ensures buf[..] == old(buf[..])[old(pos) := x]
    {
      buf[pos] := x;
      pos := pos + 1;
    }
  }

  /** Two chunks of one buffer with exactly the room for `n` and `m` more entries. */
  ghost predicate Room<T>(out0: WriteChunk<T>, out1: WriteChunk<T>, n: nat, m: nat)
    reads out0, out1
  {
    && out0 != out1 && out0.buf == out1.buf
    && out0.pos + n <= out0.end <= out0.buf.Length && out1.pos + m <= out1.end <= out1.buf.Length
    && (out0.end <= out1.pos || out1.end <= out0.pos)
  }

  /** The second pass for one match: see `GateSide`. */
  method WriteMatch<V>(m: Merge<Element<V>>, gate: U4<V>, q: Qubit, out0: WriteChunk<Element<V>>, out1: WriteChunk<Element<V>>)
    requires Room(out0, out1, |GateSide(m, gate, q, false)|, |GateSide(m, gate, q, true)|)
    modifies out0`pos, out1`pos, out0.buf
    ensures out0.pos == old(out0.pos) + |GateSide(m, gate, q, false)|
    ensures out1.pos == old(out1.pos) + |GateSide(m, gate, q, true)|
    ensures Wrote(out0.buf[..], old(out0.buf[..]), old(out0.pos), GateSide(m, gate, q, false),
                  old(out1.pos), GateSide(m, gate, q, true))
  {
    match m
    case Lhs(v0) =>
      var (p0, p1) := gate.apply(false, v0.val);
      out0.PushUnchecked(Element(v0.bits, p0));
      out1.PushUnchecked(Element(Flip(v0.bits, {q}), p1));
    case Rhs(v1) =>
      var (p1, p0) := gate.apply(true, v1.val);
      out0.PushUnchecked(Element(Flip(v1.bits, {q}), p0));
      out1.PushUnchecked(Element(v1.bits, p1));
    case Both(v0, v1) =>
      var (r0a, r1a) := gate.apply(false, v0.val);
      var (r1b, r0b) := gate.apply(true, v1.val);
      var (keep0, r0) := gate.accumulate(r0a, r0b);
      if keep0 {
        out0.PushUnchecked(Element(v0.bits, r0));
      }
      var (keep1, r1) := gate.accumulate(r1a, r1b);
      if keep1 {
        out1.PushUnchecked(Element(v1.bits, r1));
      }
  }

  lemma GateOutSnoc<V>(ms: seq<Merge<Element<V>>>, i: nat, gate: U4<V>, q: Qubit, side: bool)
    requires i < |ms|
    ensures GateOut(ms[..i + 1], gate, q, side) == GateOut(ms[..i], gate, q, side) + GateSide(ms[i], gate, q, side)
    ensures |GateOut(ms[..i + 1], gate, q, side)| <= |GateOut(ms, gate, q, side)|
  {
    assert ms[..i + 1][..i] == ms[..i];
    assert ms == ms[..i + 1] + ms[i + 1..];
    GateOutConcat(ms[..i + 1], ms[i + 1..], gate, q, side);
  }

  /** The first pass of a gate. */
  method DoU4Count<V>(q: Qubit, gate: U4<V>, words: nat, c0: Part<V>, c1: Part<V>) returns (n0: nat, n1: nat)
    ensures n0 == |Outcome(ApplyGate(q, gate), words, c0, c1, false)|
    ensures n1 == |Outcome(ApplyGate(q, gate), words, c0, c1, true)|
  {
    n0, n1 := 0, 0;
    var ms := MergeEq(c0, c1, Masked(q, words));
    for i := 0 to |ms|
      invariant n0 == |GateOut(ms[..i], gate, q, false)| && n1 == |GateOut(ms[..i], gate, q, true)|
    {
      GateOutSnoc(ms, i, gate, q, false);
      GateOutSnoc(ms, i, gate, q, true);
      match ms[i]
      case Lhs(_) => n0, n1 := n0 + 1, n1 + 1;
      case Rhs(_) => n0, n1 := n0 + 1, n1 + 1;
      case Both(v0, v1) =>
        var (r0a, r1a) := gate.apply(false, v0.val);
        var (r1b, r0b) := gate.apply(true, v1.val);
        if gate.accumulate(r0a, r0b).0 {
          n0 := n0 + 1;
        }
        if gate.accumulate(r1a, r1b).0 {
          n1 := n1 + 1;
        }
    }
    assert ms[..|ms|] == ms;
  }

  /** The second pass of a gate: it fills both chunks, which have exactly the room that was counted. */
  method DoU4Write<V>(q: Qubit, gate: U4<V>, words: nat, c0: Part<V>, c1: Part<V>,
                      out0: WriteChunk<Element<V>>, out1: WriteChunk<Element<V>>)
    requires Room(out0, out1, |Outcome(ApplyGate(q, gate), words, c0, c1, false)|, |Outcome(ApplyGate(q, gate), words, c0, c1, true)|)
    modifies out0`pos, out1`pos, out0.buf
    ensures Wrote(out0.buf[..], old(out0.buf[..]), old(out0.pos), Outcome(ApplyGate(q, gate), words, c0, c1, false),
                  old(out1.pos), Outcome(ApplyGate(q, gate), words, c0, c1, true))
  {
    hide GateSide, GateOut, Wrote;
    var ms := MergeEq(c0, c1, Masked(q, words));
    ghost var was, a, b := out0.buf[..], out0.pos, out1.pos;
    NothingOut(was, a, b, ms, gate, q);
    for i := 0 to |ms|
      invariant out0.pos == a + |GateOut(ms[..i], gate, q, false)| && out1.pos == b + |GateOut(ms[..i], gate, q, true)|
      invariant Wrote(out0.buf[..], was, a, GateOut(ms[..i], gate, q, false), b, GateOut(ms[..i], gate, q, true))
    {
      GateOutSnoc(ms, i, gate, q, false);
      GateOutSnoc(ms, i, gate, q, true);
      ghost var s := out0.buf[..];
      WriteMatch(ms[i], gate, q, out0, out1);
      WroteMore(was, s, out0.buf[..], a, GateOut(ms[..i], gate, q, false), b, GateOut(ms[..i], gate, q, true),
                GateSide(ms[i], gate, q, false), GateSide(ms[i], gate, q, true));
    }
    assert ms[..|ms|] == ms;
  }

  lemma NothingOut<V>(s: seq<Element<V>>, a: nat, b: nat, ms: seq<Merge<Element<V>>>, gate: U4<V>, q: Qubit)
    requires a <= |s| && b <= |s|
    ensures GateOut(ms[..0], gate, q, false) == [] && GateOut(ms[..0], gate, q, true) == []
    ensures Wrote(s, s, a, [], b, [])
  {
  }

  /** The entry, if it goes to this side. */
  function IfOn<V>(e: Element<V>, q: Qubit, side: bool): Part<V> {
    if (q in e.bits) == side then [e] else []
  }

  lemma PickedSnoc<V>(s: Part<V>, i: nat, q: Qubit, side: bool)
    requires i < |s|
    ensures Picked(s[..i + 1], Side(q, side)) == Picked(s[..i], Side(q, side)) + IfOn(s[i], q, side)
    ensures |Picked(s[..i + 1], Side(q, side))| <= |Picked(s, Side(q, side))|
  {
    assert s[..i + 1][..i] == s[..i];
    assert s == s[..i + 1] + s[i + 1..];
    PickedConcat(s[..i + 1], s[i + 1..], Side(q, side));
  }

  /** How many entries of a chunk have the qubit set. */
  method CountSet<V>(q: Qubit, c: Part<V>) returns (n: nat)
    ensures n == |Picked(c, Side(q, true))| && n + |Picked(c, Side(q, false))| == |c|
  {
    n := 0;
    for i := 0 to |c|
      invariant n == |Picked(c[..i], Side(q, true))| && n + |Picked(c[..i], Side(q, false))| == i
    {
      PickedSnoc(c, i, q, true);
      PickedSnoc(c, i, q, false);
      n := n + if q in c[i].bits then 1 else 0;
    }
    assert c[..|c|] == c;
  }

  /** Merging does not change how many entries are picked. */
  lemma {:induction false} PickedMerged<V>(c0: Part<V>, c1: Part<V>, key: Element<V> -> int, p: Element<V> -> bool)
    ensures |Picked(Interleaved(c0, c1, key), p)| == |Picked(c0, p)| + |Picked(c1, p)|
    decreases |c0| + |c1|
  {
    hide Picked;
    if c0 == [] || c1 == [] {
      PickedNone<Element<V>>(p);
    } else if key(c0[0]) <= key(c1[0]) {
      PickedMerged(c0[1..], c1, key, p);
      PickedCons(c0[0], c0[1..], p);
      PickedCons(c0[0], Interleaved(c0[1..], c1, key), p);
      assert c0 == [c0[0]] + c0[1..];
    } else {
      PickedMerged(c0, c1[1..], key, p);
      PickedCons(c1[0], c1[1..], p);
      PickedCons(c1[0], Interleaved(c0, c1[1..], key), p);
      assert c1 == [c1[0]] + c1[1..];
    }
  }

  lemma PickedNone<T>(p: T -> bool)
    ensures Picked([], p) == []
  {
  }

  lemma PickedCons<T>(x: T, s: seq<T>, p: T -> bool)
    ensures Picked([x] + s, p) == (if p(x) then [x] else []) + Picked(s, p)
  {
    PickedConcat([x], s, p);
    assert [x][..0] == [];
    assert Picked([x], p) == Picked([], p) + if p(x) then [x] else [];
  }

  /** The first pass of a repartition: it counts the entries chunk by chunk, not in merged order. */
  method DoRepartitionCount<V>(q: Qubit, isFixup: bool, words: nat, c0: Part<V>, c1: Part<V>) returns (n0: nat, n1: nat)
    ensures n0 == |Outcome(Repartition(q, isFixup), words, c0, c1, false)|
    ensures n1 == |Outcome(Repartition(q, isFixup), words, c0, c1, true)|
  {
    var r0 := CountSet(q, c0);
    var r1 := CountSet(q, c1);
    ghost var key := TaskKey(Repartition(q, isFixup), words);
    PickedMerged(c0, c1, key, Side(q, false));
    PickedMerged(c0, c1, key, Side(q, true));
    n0, n1 := |c0| + |c1| - (r0 + r1), r0 + r1;
  }

  /** Pushing an entry to the side it belongs to. */
  method WriteEntry<V>(e: Element<V>, q: Qubit, out0: WriteChunk<Element<V>>, out1: WriteChunk<Element<V>>)
    requires Room(out0, out1, |IfOn(e, q, false)|, |IfOn(e, q, true)|)
    modifies out0`pos, out1`pos, out0.buf
    ensures out0.pos == old(out0.pos) + |IfOn(e, q, false)| && out1.pos == old(out1.pos) + |IfOn(e, q, true)|
    ensures Wrote(out0.buf[..], old(out0.buf[..]), old(out0.pos), IfOn(e, q, false), old(out1.pos), IfOn(e, q, true))
  {
    if q in e.bits {
      out1.PushUnchecked(e);
    } else {
      out0.PushUnchecked(e);
    }
  }

  /** The second pass of a repartition, with either key. */
  method DoRepartitionWrite<V>(q: Qubit, isFixup: bool, words: nat, c0: Part<V>, c1: Part<V>,
                               out0: WriteChunk<Element<V>>, out1: WriteChunk<Element<V>>)
    requires Room(out0, out1, |Outcome(Repartition(q, isFixup), words, c0, c1, false)|,
                  |Outcome(Repartition(q, isFixup), words, c0, c1, true)|)
    modifies out0`pos, out1`pos, out0.buf
    ensures Wrote(out0.buf[..], old(out0.buf[..]), old(out0.pos), Outcome(Repartition(q, isFixup), words, c0, c1, false),
                  old(out1.pos), Outcome(Repartition(q, isFixup), words, c0, c1, true))
  {
    hide Picked, Wrote, IfOn;
    var es := MergeDistinct(c0, c1, if isFixup then Masked(q, words) else Ranked(words));
    ghost var was, a, b := out0.buf[..], out0.pos, out1.pos;
    hide Side;
    NonePicked(was, a, b, es, q);
    for i := 0 to |es|
      invariant out0.pos == a + |Picked(es[..i], Side(q, false))| && out1.pos == b + |Picked(es[..i], Side(q, true))|
      invariant Wrote(out0.buf[..], was, a, Picked(es[..i], Side(q, false)), b, Picked(es[..i], Side(q, true)))
    {
      PickedSnoc(es, i, q, false);
      PickedSnoc(es, i, q, true);
      ghost var s := out0.buf[..];
      WriteEntry(es[i], q, out0, out1);
      WroteMore(was, s, out0.buf[..], a, Picked(es[..i], Side(q, false)), b, Picked(es[..i], Side(q, true)),
                IfOn(es[i], q, false), IfOn(es[i], q, true));
    }
    assert es[..|es|] == es;
  }

  lemma NonePicked<V>(s: seq<Element<V>>, a: nat, b: nat, es: Part<V>, q: Qubit)
    requires a <= |s| && b <= |s|
    ensures Picked(es[..0], Side(q, false)) == [] && Picked(es[..0], Side(q, true)) == []
    ensures Wrote(s, s, a, [], b, [])
  {
  }

  // All pairs of chunks

  method CountChunk<V>(task: Task<V>, words: nat, c0: Part<V>, c1: Part<V>) returns (n0: nat, n1: nat)
    ensures n0 == |Outcome(task, words, c0, c1, false)| && n1 == |Outcome(task, words, c0, c1, true)|
  {
    match task
    case ApplyGate(q, gate) => n0, n1 := DoU4Count(q, gate, words, c0, c1);
    case Repartition(q, isFixup) => n0, n1 := DoRepartitionCount(q, isFixup, words, c0, c1);
  }

  method WriteTask<V>(task: Task<V>, words: nat, c0: Part<V>, c1: Part<V>,
                      out0: WriteChunk<Element<V>>, out1: WriteChunk<Element<V>>)
    requires Room(out0, out1, |Outcome(task, words, c0, c1, false)|, |Outcome(task, words, c0, c1, true)|)
    modifies out0`pos, out1`pos, out0.buf
    ensures Wrote(out0.buf[..], old(out0.buf[..]), old(out0.pos), Outcome(task, words, c0, c1, false),
                  old(out1.pos), Outcome(task, words, c0, c1, true))
  {
    hide Wrote, Outcome;
    match task
    case ApplyGate(q, gate) => DoU4Write(q, gate, words, c0, c1, out0, out1);
    case Repartition(q, isFixup) => DoRepartitionWrite(q, isFixup, words, c0, c1, out0, out1);
  }

  /** Where the output of pair `k` starts on its side. */
  function Offset<V>(task: Task<V>, words: nat, r: seq<Pair<Element<V>>>, k: nat, side: bool): nat
    requires k <= |r|
  {
    |Outcomes(task, words, r[..k], side)|
  }

  function OutcomeOf<V>(task: Task<V>, words: nat, p: Pair<Element<V>>, side: bool): Part<V> {
    Outcome(task, words, p.0, p.1, side)
  }

  lemma OffsetNext<V>(task: Task<V>, words: nat, r: seq<Pair<Element<V>>>, k: nat, side: bool)
    requires k < |r|
    ensures Outcomes(task, words, r[..k + 1], side) == Outcomes(task, words, r[..k], side) + OutcomeOf(task, words, r[k], side)
    ensures Offset(task, words, r, k + 1, side) == Offset(task, words, r, k, side) + |OutcomeOf(task, words, r[k], side)|
  {
    assert r[..k + 1][..k] == r[..k];
    hide Outcome;
  }

  lemma {:induction false} OffsetsRise<V>(task: Task<V>, words: nat, r: seq<Pair<Element<V>>>, j: nat, k: nat, side: bool)
    requires j <= k <= |r|
    ensures Offset(task, words, r, j, side) <= Offset(task, words, r, k, side)
    ensures j < k ==> Offset(task, words, r, j, side) + |OutcomeOf(task, words, r[j], side)| <= Offset(task, words, r, k, side)
    decreases k
  {
    hide Offset, OutcomeOf;
    if j < k {
      OffsetsRise(task, words, r, j, k - 1, side);
      OffsetNext(task, words, r, k - 1, side);
    }
  }

  /** The output of a pair on one side is in its place in the buffer, where the second side follows the first. */
  ghost predicate InPlace<V>(s: Part<V>, task: Task<V>, words: nat, r: seq<Pair<Element<V>>>, k: nat, side: bool)
    requires k < |r|
  {
    Placed(s, Start(task, words, r, k, side), OutcomeOf(task, words, r[k], side))
  }

  function Start<V>(task: Task<V>, words: nat, r: seq<Pair<Element<V>>>, k: nat, side: bool): nat
    requires k <= |r|
  {
    (if side then Offset(task, words, r, |r|, false) else 0) + Offset(task, words, r, k, side)
  }

  /** Different pairs, and the two sides, have separate places. */
  lemma PlacesApart<V>(task: Task<V>, words: nat, r: seq<Pair<Element<V>>>, j: nat, jSide: bool, k: nat, kSide: bool)
    requires j < |r| && k < |r| && (j != k || jSide != kSide)
    ensures Disjoint(Start(task, words, r, j, jSide), |OutcomeOf(task, words, r[j], jSide)|,
                     Start(task, words, r, k, kSide), |OutcomeOf(task, words, r[k], kSide)|)
    ensures Start(task, words, r, k, kSide) + |OutcomeOf(task, words, r[k], kSide)|
         <= Offset(task, words, r, |r|, false) + Offset(task, words, r, |r|, true)
  {
    hide Offset, OutcomeOf;
    OffsetsRise(task, words, r, j, |r|, jSide);
    OffsetsRise(task, words, r, k, |r|, kSide);
    if j < k {
      OffsetsRise(task, words, r, j, k, jSide);
    } else if k < j {
      OffsetsRise(task, words, r, k, j, kSide);
    }
  }

  /** Writing one pair leaves what has been written for the others. */
  lemma OthersKept<V>(s: Part<V>, t: Part<V>, task: Task<V>, words: nat, r: seq<Pair<Element<V>>>, k: nat, j: nat, side: bool)
    requires j < |r| && k < |r| && j != k && InPlace(s, task, words, r, j, side)
    requires Wrote(t, s, Start(task, words, r, k, false), OutcomeOf(task, words, r[k], false),
                   Start(task, words, r, k, true), OutcomeOf(task, words, r[k], true))
    ensures InPlace(t, task, words, r, j, side)
  {
    PlacesApart(task, words, r, j, side, k, false);
    PlacesApart(task, words, r, j, side, k, true);
    hide Start, OutcomeOf;
  }

  /** With every pair in place, one side of the buffer is all outcomes in order. */
  lemma {:induction false} SideComplete<V>(s: Part<V>, task: Task<V>, words: nat, r: seq<Pair<Element<V>>>, n: nat, side: bool)
    requires n <= |r| && forall k :: 0 <= k < n ==> InPlace(s, task, words, r, k, side)
    requires Start(task, words, r, |r|, side) <= |s|
    ensures Placed(s, Start(task, words, r, 0, side), Outcomes(task, words, r[..n], side))
    decreases n
  {
    hide Outcome;
    if n > 0 {
      SideComplete(s, task, words, r, n - 1, side);
      OffsetNext(task, words, r, n - 1, side);
      assert InPlace(s, task, words, r, n - 1, side);
      StartIs(task, words, r, n - 1, side);
      hide *;
      PlacedConcat(s, Start(task, words, r, 0, side), Outcomes(task, words, r[..n - 1], side), OutcomeOf(task, words, r[n - 1], side));
    } else {
      OffsetsRise(task, words, r, 0, |r|, side);
    }
  }

  lemma StartIs<V>(task: Task<V>, words: nat, r: seq<Pair<Element<V>>>, k: nat, side: bool)
    requires k <= |r|
    ensures Start(task, words, r, k, side) == Start(task, words, r, 0, side) + |Outcomes(task, words, r[..k], side)|
  {
    assert r[..0] == [];
  }

  lemma PlacedConcat<T>(s: seq<T>, a: nat, xs: seq<T>, ys: seq<T>)
    requires Placed(s, a, xs) && Placed(s, a + |xs|, ys)
    ensures Placed(s, a, xs + ys)
  {
  }

  /** After the pair `k` has been written, it is in place, and so is everything that was. */
  lemma PairWritten<V>(s: Part<V>, t: Part<V>, task: Task<V>, words: nat, r: seq<Pair<Element<V>>>, todo: set<nat>, k: nat)
    requires k in todo && (forall j :: j in todo ==> j < |r|)
    requires AllInPlace(s, task, words, r, todo)
    requires Wrote(t, s, Start(task, words, r, k, false), OutcomeOf(task, words, r[k], false),
                   Start(task, words, r, k, true), OutcomeOf(task, words, r[k], true))
    ensures AllInPlace(t, task, words, r, todo - {k})
  {
    forall j: nat, side | j < |r| && j !in todo - {k} ensures InPlace(t, task, words, r, j, side) {
      if j != k {
        assert InPlace(s, task, words, r, j, side);
        hide *;
        OthersKept(s, t, task, words, r, k, j, side);
      }
    }
  }

  ghost predicate AllInPlace<V>(s: Part<V>, task: Task<V>, words: nat, r: seq<Pair<Element<V>>>, todo: set<nat>) {
    forall k: nat, side :: k < |r| && k !in todo ==> InPlace(s, task, words, r, k, side)
  }

  lemma SideOfBuffer<V>(s: Part<V>, task: Task<V>, words: nat, r: seq<Pair<Element<V>>>, side: bool)
    requires AllInPlace(s, task, words, r, {}) && Staged(r, TaskKey(task, words))
    requires Start(task, words, r, |r|, side) <= |s|
    ensures Placed(s, Start(task, words, r, 0, side), Outcome(task, words, Firsts(r), Seconds(r), side))
    ensures |Outcome(task, words, Firsts(r), Seconds(r), side)| == Offset(task, words, r, |r|, side)
  {
    SideComplete(s, task, words, r, |r|, side);
    ChunkedOutcome(task, words, r, side);
    assert r[..|r|] == r;
    hide Outcome;
  }

  /** With nothing left to do, the two halves of the buffer are the two sides. */
  lemma BufferComplete<V>(s: Part<V>, task: Task<V>, words: nat, r: seq<Pair<Element<V>>>, n0: nat, n1: nat)
    requires AllInPlace(s, task, words, r, {}) && Staged(r, TaskKey(task, words))
    requires n0 == Offset(task, words, r, |r|, false) && n1 == Offset(task, words, r, |r|, true) && |s| == n0 + n1
    ensures s[..n0] == Outcome(task, words, Firsts(r), Seconds(r), false)
    ensures s[n0..] == Outcome(task, words, Firsts(r), Seconds(r), true)
  {
    StartsAt(task, words, r);
    hide *;
    SideOfBuffer(s, task, words, r, false);
    SideOfBuffer(s, task, words, r, true);
    PlacedSlice(s, 0, Outcome(task, words, Firsts(r), Seconds(r), false));
    PlacedSlice(s, n0, Outcome(task, words, Firsts(r), Seconds(r), true));
  }

  lemma StartsAt<V>(task: Task<V>, words: nat, r: seq<Pair<Element<V>>>)
    ensures Start(task, words, r, 0, false) == 0 && Start(task, words, r, |r|, false) == Offset(task, words, r, |r|, false)
    ensures Start(task, words, r, 0, true) == Offset(task, words, r, |r|, false)
    ensures Start(task, words, r, |r|, true) == Offset(task, words, r, |r|, false) + Offset(task, words, r, |r|, true)
  {
    NoOffset(task, words, r);
    hide Offset;
  }

  lemma PlacedSlice<T>(s: seq<T>, a: nat, xs: seq<T>)
    requires Placed(s, a, xs)
    ensures s[a..a + |xs|] == xs
  {
  }

  /** The room a pair gets is exactly the room it needs. */
  lemma RoomFor<V>(task: Task<V>, words: nat, r: seq<Pair<Element<V>>>, k: nat, n0: nat, n1: nat)
    requires k < |r| && n0 == Offset(task, words, r, |r|, false) && n1 == Offset(task, words, r, |r|, true)
    ensures Offset(task, words, r, k + 1, false) == Offset(task, words, r, k, false) + |OutcomeOf(task, words, r[k], false)| <= n0
    ensures Offset(task, words, r, k + 1, true) == Offset(task, words, r, k, true) + |OutcomeOf(task, words, r[k], true)| <= n1
  {
    OffsetNext(task, words, r, k, false);
    OffsetNext(task, words, r, k, true);
    OffsetsRise(task, words, r, k + 1, |r|, false);
    OffsetsRise(task, words, r, k + 1, |r|, true);
  }

  /** The first pass over all pairs: where the output of each pair starts, on each side. */
  method CountPairs<V>(task: Task<V>, words: nat, r: seq<Pair<Element<V>>>) returns (at0: seq<nat>, at1: seq<nat>)
    ensures |at0| == |at1| == |r| + 1
    ensures forall j :: 0 <= j <= |r| ==> at0[j] == Offset(task, words, r, j, false) && at1[j] == Offset(task, words, r, j, true)
  {
    hide *;
    at0, at1 := [0], [0];
    NoOffset(task, words, r);
    for k := 0 to |r|
      invariant |at0| == |at1| == k + 1
      invariant forall j :: 0 <= j <= k ==> at0[j] == Offset(task, words, r, j, false) && at1[j] == Offset(task, words, r, j, true)
    {
      var c0, c1 := CountChunk(task, words, r[k].0, r[k].1);
      OffsetNext(task, words, r, k, false);
      OffsetNext(task, words, r, k, true);
      OutcomeOfPair(task, words, r[k]);
      at0, at1 := at0 + [at0[k] + c0], at1 + [at1[k] + c1];
    }
  }

  function Indices(n: nat): (s: set<nat>)
    ensures forall k: nat :: k in s <==> k < n
  {
    if n == 0 then {} else Indices(n - 1) + {n - 1}
  }

  /** The second pass: the pairs are written in any order. */
  method WritePairs<V>(task: Task<V>, words: nat, r: seq<Pair<Element<V>>>, at0: seq<nat>, at1: seq<nat>, buf: array<Element<V>>)
    requires |at0| == |at1| == |r| + 1 && buf.Length == at0[|r|] + at1[|r|]
    requires forall j :: 0 <= j <= |r| ==> at0[j] == Offset(task, words, r, j, false) && at1[j] == Offset(task, words, r, j, true)
    modifies buf
    ensures AllInPlace(buf[..], task, words, r, {})
  {
    hide *;
    var n0, n1 := at0[|r|], at1[|r|];
    var todo: set<nat> := Indices(|r|);
    NothingInPlace(buf[..], task, words, r, todo);
    while todo != {}
      invariant forall k :: k in todo ==> k < |r|
      invariant AllInPlace(buf[..], task, words, r, todo)
      decreases |todo|
    {
      var k: nat :| k in todo;
      RoomFor(task, words, r, k, n0, n1);
      WritePair(task, words, r, k, n0, n1, buf, at0[k], at0[k + 1], n0 + at1[k], n0 + at1[k + 1], todo);
      todo := todo - {k};
    }
  }

  /** Cuts the parts into pairs of chunks, counts, reserves the output buffer, and fills it. */
  method RunChunks<V(0)>(task: Task<V>, words: nat, p0: Part<V>, p1: Part<V>, count: nat)
    returns (buf: array<Element<V>>, n0: nat, n1: nat)
    requires Increasing(p0, TaskKey(task, words)) && Increasing(p1, TaskKey(task, words))
    ensures fresh(buf) && buf.Length == n0 + n1
    ensures buf[..n0] == Outcome(task, words, p0, p1, false) && buf[n0..] == Outcome(task, words, p0, p1, true)
  {
    hide *;
    var r := MergeChunkPairs(p0, p1, count, TaskKey(task, words));
    var at0, at1 := CountPairs(task, words, r);
    n0, n1 := at0[|r|], at1[|r|];
    buf := new Element<V>[n0 + n1];
    WritePairs(task, words, r, at0, at1, buf);
    BufferComplete(buf[..], task, words, r, n0, n1);
    assert buf[..][..n0] == buf[..n0] && buf[..][n0..] == buf[n0..];
  }

  lemma NoOffset<V>(task: Task<V>, words: nat, r: seq<Pair<Element<V>>>)
    ensures Offset(task, words, r, 0, false) == 0 && Offset(task, words, r, 0, true) == 0
  {
    assert r[..0] == [];
  }

  lemma OutcomeOfPair<V>(task: Task<V>, words: nat, p: Pair<Element<V>>)
    ensures forall side :: OutcomeOf(task, words, p, side) == Outcome(task, words, p.0, p.1, side)
  {
  }

  lemma NothingInPlace<V>(s: Part<V>, task: Task<V>, words: nat, r: seq<Pair<Element<V>>>, todo: set<nat>)
    requires forall k: nat :: k < |r| ==> k in todo
    ensures AllInPlace(s, task, words, r, todo)
  {
  }

  /** One pair is written into its two chunks. */
  method WritePair<V>(task: Task<V>, words: nat, r: seq<Pair<Element<V>>>, k: nat, ghost n0: nat, ghost n1: nat,
                      buf: array<Element<V>>, a0: nat, e0: nat, a1: nat, e1: nat, ghost todo: set<nat>)
    requires k < |r| && k in todo && (forall j :: j in todo ==> j < |r|)
    requires n0 == Offset(task, words, r, |r|, false) && n1 == Offset(task, words, r, |r|, true) && buf.Length == n0 + n1
    requires a0 == Offset(task, words, r, k, false) && e0 == a0 + |OutcomeOf(task, words, r[k], false)| <= n0
    requires a1 == n0 + Offset(task, words, r, k, true) && e1 == a1 + |OutcomeOf(task, words, r[k], true)| <= n0 + n1
    requires AllInPlace(buf[..], task, words, r, todo)
    modifies buf
    ensures AllInPlace(buf[..], task, words, r, todo - {k})
  {
    OutcomeOfPair(task, words, r[k]);
    ghost var was := buf[..];
    assert a0 == Start(task, words, r, k, false) && a1 == Start(task, words, r, k, true);
    hide Start, Offset, OutcomeOf, Outcome, AllInPlace, Wrote;
    var out0 := new WriteChunk(buf, a0, e0);
    var out1 := new WriteChunk(buf, a1, e1);
    WriteTask(task, words, r[k].0, r[k].1, out0, out1);
    PairWritten(was, buf[..], task, words, r, todo, k);
  }
}
