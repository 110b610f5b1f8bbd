/** Measuring a qubit under pending gates (`measure` and `premeasure` in `src/simulator.rs`), with exact real weights. */
module Measurements {
  import opened Wrappers
  import opened Angles
  import opened Controls
  import opened Ops
  import opened Complexes
  import opened Circuits
  import opened CircuitRules
  import opened U3Matrices
  import opened PendingGates
  import opened DenseVectors
  import opened Masses
  import CompiledGates
  import P = SparseParts
  import Q = CompileQueue
  import U = U3Gates

  // Weights

  /** The weight of the entries that have the qubit at `v`. */
  function Weight(s: P.Part<Complex>, q: Qubit, v: bool): (r: real)
    ensures r >= 0.0
  {
    if s == [] then 0.0
    else Weight(s[..|s| - 1], q, v) + if (q in s[|s| - 1].bits) == v then Norm2(s[|s| - 1].val) else 0.0
  }

  /** There is no weight on one side exactly if all amplitudes there are zero. */
  lemma {:induction false} NoWeight(s: P.Part<Complex>, q: Qubit, v: bool)
    ensures Weight(s, q, v) == 0.0 <==> forall e :: e in s && (q in e.bits) == v ==> e.val == ZERO
  {
    hide Norm2;
    if s != [] {
      var n := |s| - 1;
      NoWeight(s[..n], q, v);
      assert s == s[..n] + [s[n]];
      assert forall e :: e in s <==> e in s[..n] || e == s[n];
      assert Norm2(s[n].val) >= 0.0;
    }
  }

  /** The weights of both sides, as `premeasure` sums them up. */
  method Weights(data: array<CompiledGates.Element<Complex>>, n: nat, q: Qubit) returns (r0: real, r1: real)
    requires n <= data.Length
    ensures r0 == Weight(data[..n], q, false) && r1 == Weight(data[..n], q, true)
  {
    hide Norm2;
    r0, r1 := 0.0, 0.0;
    for i := 0 to n
      invariant r0 == Weight(data[..i], q, false) && r1 == Weight(data[..i], q, true)
    {
      assert data[..i + 1][..i] == data[..i] && data[..i + 1][i] == data[i];
      if q in data[i].bits {
        r1 := r1 + Norm2(data[i].val);
      } else {
        r0 := r0 + Norm2(data[i].val);
      }
    }
  }

  /** Every position has a state of its own. */
  ghost predicate DistinctStates(s: P.Part<Complex>) {
    forall i, j :: 0 <= i < j < |s| ==> s[i].bits != s[j].bits
  }

  lemma GoodDistinct(p0: P.Part<Complex>, p1: P.Part<Complex>, split: Option<Qubit>, words: nat)
    requires P.GoodParts(p0, p1, split, words)
    ensures DistinctStates(p0 + p1)
  {
    var s := p0 + p1;
    forall i, j | 0 <= i < j < |s| ensures s[i].bits != s[j].bits {
      if j < |p0| {
        assert s[i] == p0[i] && s[j] == p0[j];
      } else if i < |p0| {
        assert s[i] in p0 && s[j] in p1;
      } else {
        assert s[i] == p1[i - |p0|] && s[j] == p1[j - |p0|];
      }
    }
  }

  function StatesOf(s: P.Part<Complex>, q: Qubit, v: bool): set<Bits> {
    set i | 0 <= i < |s| && (q in s[i].bits) == v :: s[i].bits
  }

  lemma {:induction false} WeightIsSum(s: P.Part<Complex>, q: Qubit, v: bool, f: Bits -> real)
    requires DistinctStates(s) && forall i :: 0 <= i < |s| ==> f(s[i].bits) == Norm2(s[i].val)
    ensures Weight(s, q, v) == SumOver(StatesOf(s, q, v), f)
  {
    hide Norm2;
    if s != [] {
      var n := |s| - 1;
      WeightIsSum(s[..n], q, v, f);
      var t, b := StatesOf(s, q, v), s[n].bits;
      if (q in b) == v {
        assert t - {b} == StatesOf(s[..n], q, v);
        SumTake(t, f, b);
      } else {
        assert t == StatesOf(s[..n], q, v);
      }
    }
  }

  /** The summed up weights are those of the vector that the parts make. */
  lemma WeightIsMass(p0: P.Part<Complex>, p1: P.Part<Complex>, split: Option<Qubit>, words: nat, q: Qubit, v: bool)
    requires P.GoodParts(p0, p1, split, words)
    ensures Weight(p0 + p1, q, v) == SideMass(P.Vector(p0, p1), q, v)
  {
    var s := p0 + p1;
    P.VectorIs(p0, p1, split, words);
    GoodDistinct(p0, p1, split, words);
    hide P.GoodParts, P.Vector, Norm2;
    var m := P.Meaning(s);
    forall i | 0 <= i < |s| ensures s[i].bits in m && m[s[i].bits] == s[i].val {
      P.MeaningHas(s, s[i].bits);
      assert s[i] in s;
    }
    forall b | b in m ensures exists i :: 0 <= i < |s| && s[i].bits == b {
      P.MeaningHas(s, b);
      var e :| e in s && e.bits == b;
    }
    hide P.Meaning;
    assert SideStates(m.Keys, q, v) == StatesOf(s, q, v);
    WeightIsSum(s, q, v, NormAt(m));
  }

  /** All amplitudes with the qubit not at `v` are zero. */
  ghost predicate OnlySide(m: Stored, q: Qubit, v: bool) {
    forall b :: b in m && (q in b) != v ==> m[b] == ZERO
  }

  lemma OnlySideOf(p0: P.Part<Complex>, p1: P.Part<Complex>, split: Option<Qubit>, words: nat, q: Qubit, v: bool)
    requires P.GoodParts(p0, p1, split, words) && Weight(p0 + p1, q, !v) == 0.0
    ensures OnlySide(P.Vector(p0, p1), q, v)
  {
    NoWeight(p0 + p1, q, !v);
    P.VectorIs(p0, p1, split, words);
    hide P.GoodParts;
    var m := P.Meaning(p0 + p1);
    forall b | b in m && (q in b) != v ensures m[b] == ZERO {
      P.MeaningHas(p0 + p1, b);
      var e :| e in p0 + p1 && e.bits == b;
      assert m[e.bits] == e.val;
    }
  }

  /** The reported outcome of a draw: the side that the bias falls on. */
  function Drawn(r0: real, r1: real, bias: int): bool
    requires r0 >= 0.0 && r1 >= 0.0 && r0 + r1 > 0.0
  {
    var turn := TURN as real;
    if r0 <= r1 then bias >= (r0 / (r0 + r1) * turn).Floor else TURN - 1 - bias < (r1 / (r0 + r1) * turn).Floor
  }

  /** An outcome without weight is never drawn. */
  lemma DrawnHasWeight(r0: real, r1: real, bias: int)
    requires r0 >= 0.0 && r1 >= 0.0 && r0 + r1 > 0.0 && 0 <= bias < TURN
    ensures if Drawn(r0, r1, bias) then r1 > 0.0 else r0 > 0.0
  {
    var sum := r0 + r1;
    if r0 <= r1 {
      if r0 == 0.0 {
        assert r0 / sum == 0.0;
        assert 0.0 * (TURN as real) == 0.0;
      }
    } else if r1 == 0.0 {
      assert r1 / sum == 0.0;
      assert 0.0 * (TURN as real) == 0.0;
    }
  }

  /** The biases that give 1 are those from the probability of 0 on, as a fraction of all of them: 1 is drawn only by a
      bias above it less one, and 0 only by one below it. */
  lemma DrawnByBias(r0: real, r1: real, bias: int)
    requires r0 >= 0.0 && r1 >= 0.0 && r0 + r1 > 0.0
    ensures var limit := r0 / (r0 + r1) * TURN as real;
      if Drawn(r0, r1, bias) then bias as real > limit - 1.0 else bias as real < limit
  {
    var turn, sum := TURN as real, r0 + r1;
    assert r0 / sum + r1 / sum == 1.0;
    ShareOf(r0 / sum, r1 / sum, turn);
  }

  lemma ShareOf(p: real, q: real, turn: real)
    requires p + q == 1.0
    ensures p * turn + q * turn == turn
  {
    assert (p + q) * turn == p * turn + q * turn;
  }

  /** The same for the reported value where x is pending: the bias is turned round, and so are value and weights. */
  lemma FlippedByBias(r0: real, r1: real, bias: int)
    requires r0 >= 0.0 && r1 >= 0.0 && r0 + r1 > 0.0
    ensures var limit := r1 / (r0 + r1) * TURN as real;
      if !Drawn(r0, r1, TURN - 1 - bias) then bias as real > limit - 1.0 else bias as real < limit
  {
    var turn, sum := TURN as real, r0 + r1;
    assert r0 / sum + r1 / sum == 1.0;
    ShareOf(r0 / sum, r1 / sum, turn);
    DrawnByBias(r0, r1, TURN - 1 - bias);
    hide Drawn;
  }

  /** The outcome has some probability, and the bias decides: 1 is reported only by a bias above the probability of 0, as a
      fraction of all biases, less one, and 0 only by one below it. */
  predicate DrawnFairly(res: (bool, real, real), bias: int) {
    var (v, p0, p1) := res;
    && p0 >= 0.0 && p1 >= 0.0 && p0 + p1 == 1.0 && (if v then p1 else p0) > 0.0
    && if v then bias as real > p0 * TURN as real - 1.0 else bias as real < p0 * TURN as real
  }

  lemma FairDraw(r0: real, r1: real, bias: int, invert: bool)
    requires r0 >= 0.0 && r1 >= 0.0 && r0 + r1 > 0.0 && 0 <= bias < TURN
    ensures var v, sum := Drawn(r0, r1, if invert then TURN - 1 - bias else bias), r0 + r1;
      DrawnFairly(if invert then (!v, r1 / sum, r0 / sum) else (v, r0 / sum, r1 / sum), bias)
  {
    var b := if invert then TURN - 1 - bias else bias;
    DrawnHasWeight(r0, r1, b);
    DrawnByBias(r0, r1, bias);
    FlippedByBias(r0, r1, bias);
    hide Drawn;
    Fractions(r0, r1);
  }

  lemma Fractions(r0: real, r1: real)
    requires r0 >= 0.0 && r1 >= 0.0 && r0 + r1 > 0.0
    ensures r0 / (r0 + r1) + r1 / (r0 + r1) == 1.0 && r0 / (r0 + r1) >= 0.0 && r1 / (r0 + r1) >= 0.0
    ensures (r0 > 0.0 ==> r0 / (r0 + r1) > 0.0) && (r1 > 0.0 ==> r1 / (r0 + r1) > 0.0)
    ensures (r0 == 0.0 ==> r0 / (r0 + r1) == 0.0) && (r1 == 0.0 ==> r1 / (r0 + r1) == 0.0)
  {
  }

  /** The kept weight is what is not dropped of all. */
  lemma KeptWeight(r0: real, r1: real, v: bool)
    requires r0 >= 0.0 && r1 >= 0.0 && r0 + r1 > 0.0
    ensures var sum := r0 + r1; (if v then r1 else r0) == Product(1.0 - (if v then r0 else r1) / sum, sum)
  {
    var sum := r0 + r1;
    var x := if v then r0 else r1;
    assert (1.0 - x / sum) * sum == sum - x / sum * sum;
    assert x / sum * sum == x;
  }

  // Projections past what waits

  lemma ProjectionOnlySide(m: Stored, q: Qubit, v: bool, b: Bits)
    requires OnlySide(m, q, v)
    ensures Value(m, b) == OneGate(Projection(v, ONE), q, Dense(m), b)
  {
    hide Mul, Add, OneGate;
    DiagonalScales(Projection(v, ONE), q, Dense(m), b);
    Units(Value(m, b));
  }

  /** Projecting what is on one side anyway changes nothing. */
  lemma DenotesCertain(h: Circle, m: Stored, start: Vec, c: Circuit, q: Qubit, v: bool)
    requires Denotes(h, m, start, c) && OnlySide(m, q, v)
    ensures Denotes(h, m, start, c + [Single(q, Projection(v, ONE))])
  {
    hide *;
    forall b: Bits ensures Value(m, b) == OneGate(Projection(v, ONE), q, Dense(m), b) {
      ProjectionOnlySide(m, q, v, b);
    }
    DenotesStep(h, m, m, start, c, q, Projection(v, ONE));
  }

  lemma DiagonalProduct(m: Mat, v: bool, s: Complex)
    requires IsDiagonal(m)
    ensures Times(Projection(v, s), m) == Times(m, Projection(v, s))
  {
    hide Mul, Add;
    Units(m.a);
    Units(m.d);
    Units(s);
    Units(ZERO);
    MulCommutes(s, m.a);
    MulCommutes(s, m.d);
    Units(Mul(s, m.a));
    Units(Mul(s, m.d));
  }

  lemma AntidiagonalProduct(m: Mat, v: bool, s: Complex)
    requires IsAntidiagonal(m)
    ensures Times(Projection(v, s), m) == Times(m, Projection(!v, s))
  {
    hide Mul, Add;
    Units(m.b);
    Units(m.c);
    Units(s);
    Units(ZERO);
    MulCommutes(s, m.b);
    MulCommutes(s, m.c);
    Units(Mul(s, m.b));
    Units(Mul(s, m.c));
  }

  lemma SinglesExchangeBy(h: Circle, q: Qubit, m: Mat, n: Mat, n': Mat)
    requires Times(n, m) == Times(m, n')
    ensures Same(h, [Single(q, m), Single(q, n)], [Single(q, n'), Single(q, m)])
  {
    hide *;
    SinglesMultiply(h, q, m, n);
    SinglesMultiply(h, q, n', m);
    SameSym(h, [Single(q, n'), Single(q, m)], [Single(q, Times(m, n'))]);
    SameTrans(h, [Single(q, m), Single(q, n)], [Single(q, Times(n, m))], [Single(q, n'), Single(q, m)]);
  }

  lemma ProjectionPastOne(h: Circle, q: Qubit, g: U.U3, flips: bool, v: bool, s: Complex)
    requires ControlGate(h, g, flips)
    ensures Same(h, [Pend(h, q, g), Single(q, Projection(v, s))], [Single(q, Projection(v != flips, s)), Pend(h, q, g)])
  {
    hide Same, Matrix, Times, Projection;
    var m := Matrix(h, g);
    if flips {
      AntidiagonalProduct(m, v, s);
      SinglesExchangeBy(h, q, m, Projection(v, s), Projection(!v, s));
    } else {
      DiagonalProduct(m, v, s);
      SinglesExchangeBy(h, q, m, Projection(v, s), Projection(v, s));
    }
  }

  /** Projecting after the pending gates is projecting before them, on the other side where x is pending. */
  lemma ProjectionPastSingles(h: Circle, m: Pending, q: Qubit, flips: bool, v: bool, s: Complex)
    requires if flips then q in m && ControlGate(h, m[q], true) else q in m ==> ControlGate(h, m[q], false)
    ensures Same(h, Singles(h, m) + [Single(q, Projection(v, s))], [Single(q, Projection(v != flips, s))] + Singles(h, m))
  {
    hide Same, Matrix, Singles, ControlGate, Projection, Pend;
    var x, y := Single(q, Projection(v, s)), Single(q, Projection(v != flips, s));
    if q in m {
      var p, rest := Pend(h, q, m[q]), Singles(h, m - {q});
      PullFront(h, m, q);
      PastSingles(h, m - {q}, q, Projection(v, s));
      ProjectionPastOne(h, q, m[q], flips, v, s);
      Swept(h, Singles(h, m), rest, p, x, y);
    } else {
      PastSingles(h, m, q, Projection(v, s));
    }
  }

  lemma Swept(h: Circle, c: Circuit, rest: Circuit, p: Gate, x: Gate, y: Gate)
    requires Same(h, c, [p] + rest) && Same(h, rest + [x], [x] + rest) && Same(h, [p, x], [y, p])
    ensures Same(h, c + [x], [y] + c)
  {
    hide *;
    SameSuffix(h, c, [p] + rest, [x]);
    SamePrefix(h, [p], rest + [x], [x] + rest);
    SameSuffix(h, [p, x], [y, p], rest);
    SameSym(h, c, [p] + rest);
    SamePrefix(h, [y], [p] + rest, c);
    assert [p] + rest + [x] == [p] + (rest + [x]) && [p] + ([x] + rest) == [p, x] + rest;
    assert [y, p] + rest == [y] + ([p] + rest);
    SameTrans(h, c + [x], [p] + rest + [x], [p, x] + rest);
    SameTrans(h, c + [x], [p, x] + rest, [y, p] + rest);
    SameTrans(h, c + [x], [y, p] + rest, [y] + c);
  }

  lemma ProjectionPastQueue(h: Circle, ops: OpSeq, q: Qubit, v: bool, s: Complex)
    requires q !in Q.WritesOf(ops)
    ensures Same(h, [Single(q, Projection(v, s))] + Queued(ops), Queued(ops) + [Single(q, Projection(v, s))])
  {
    var g := Single(q, Projection(v, s));
    forall i | 0 <= i < |ops| ensures Same(h, [g, Controlled(ops[i])], [Controlled(ops[i]), g]) {
      InReads(ops, i, q);
      DiagonalCommutes(h, q, Projection(v, s), ops[i]);
    }
    hide Same;
    GatePasses(h, g, ops);
  }

  /** Measuring the stored vector is measuring the logical state. */
  lemma MeasuredLog(h: Circle, applied: Circuit, ops: OpSeq, m: Pending, q: Qubit, flips: bool, v: bool, s: Complex)
    requires q !in Q.WritesOf(ops)
    requires if flips then q in m && ControlGate(h, m[q], true) else q in m ==> ControlGate(h, m[q], false)
    ensures Same(h, Log(h, applied, ops, m) + [Single(q, Projection(v != flips, s))],
                 Log(h, applied + [Single(q, Projection(v, s))], ops, m))
  {
    hide *;
    var x, y, c, t := Single(q, Projection(v != flips, s)), Single(q, Projection(v, s)), Queued(ops), Singles(h, m);
    assert ((v != flips) != flips) == v;
    ProjectionPastSingles(h, m, q, flips, v != flips, s);
    SamePrefix(h, applied + c, t + [x], [y] + t);
    LogIs(h, applied, ops, m);
    LogIs(h, applied + [y], ops, m);
    ProjectionPastQueue(h, ops, q, v, s);
    SameSym(h, [y] + c, c + [y]);
    SameInside(h, applied, c + [y], [y] + c, t);
    assert applied + c + t + [x] == applied + c + (t + [x]) && applied + c + ([y] + t) == applied + (c + [y]) + t;
    assert applied + ([y] + c) + t == applied + [y] + c + t;
    SameTrans(h, applied + c + t + [x], applied + (c + [y]) + t, applied + [y] + c + t);
  }
}
