/**
 Circuits on dense vectors: what single-qubit gates and the queued operations do to amplitudes, and when two
 circuits are the same up to one global phase. This is the meaning of immediate execution.
 */
module Circuits {
  import opened Angles
  import opened Controls
  import opened Ops
  import opened Complexes

  /** exp(i pi x / 2^64): the angle x, halved, on the unit circle. */
  type Circle = int -> Complex

  ghost predicate IsCircle(h: Circle) {
    && (forall x {:trigger IsUnit(h(x))} :: IsUnit(h(x)))
    && (forall x, y {:trigger Mul(h(x), h(y))} :: h(x + y) == Mul(h(x), h(y)))
    && h(PI) == I
  }

  /** exp(i a). */
  function Phase(h: Circle, a: int): Complex {
    h(2 * a)
  }

  /** A 2x2 matrix, row by row. */
  datatype Mat = Mat(a: Complex, b: Complex, c: Complex, d: Complex)

  /** A single-qubit gate, an operation, or a turn of every basis state by an angle of its own: what rounding the phases
      of compiled operations adds. */
  datatype Gate = Single(q: Qubit, m: Mat) | Controlled(o: CtlOp) | Turned(d: Bits -> int)

  type Circuit = seq<Gate>

  /** A vector: the amplitude of every basis state. */
  type Vec = Bits -> Complex

  /** The amplitude of `b` after the circuit has been applied to the vector `v`. */
  function Amp(h: Circle, c: Circuit, v: Vec, b: Bits): Complex
    decreases |c|
  {
    if c == [] then v(b)
    else
      var rest := c[..|c| - 1];
      match c[|c| - 1]
      case Single(q, m) =>
        if q in b then Lin(m.c, Amp(h, rest, v, b - {q}), m.d, Amp(h, rest, v, b + {q}))
        else Lin(m.a, Amp(h, rest, v, b - {q}), m.b, Amp(h, rest, v, b + {q}))
      case Controlled(o) => Mul(Phase(h, OpArg(o, b)), Amp(h, rest, v, OpBits(o, b)))
      case Turned(d) => Mul(Phase(h, d(b)), Amp(h, rest, v, b))
  }

  /** The whole vector after the circuit. */
  function After(h: Circle, c: Circuit, v: Vec): Vec {
    (b: Bits) => Amp(h, c, v, b)
  }

  /** The circuits differ by the factor `g` only. */
  ghost predicate SameBy(h: Circle, c: Circuit, d: Circuit, g: Complex) {
    IsUnit(g) && forall v: Vec, b: Bits :: Amp(h, d, v, b) == Mul(g, Amp(h, c, v, b))
  }

  /** The circuits are the same up to global phase. */
  ghost predicate Same(h: Circle, c: Circuit, d: Circuit) {
    exists g :: SameBy(h, c, d, g)
  }

  // Congruence

  lemma AmpSnoc(h: Circle, c: Circuit, g: Gate, v: Vec, b: Bits)
    ensures Amp(h, c + [g], v, b) == Amp(h, [g], After(h, c, v), b)
  {
    assert (c + [g])[..|c|] == c && [g][..0] == [];
  }

  lemma {:induction false} AmpConcat(h: Circle, c: Circuit, d: Circuit, v: Vec, b: Bits)
    ensures Amp(h, c + d, v, b) == Amp(h, d, After(h, c, v), b)
    decreases |d|
  {
    if d == [] {
      assert c + d == c;
    } else {
      var n := |d| - 1;
      var e := d[..n];
      assert (c + d)[..|c + d| - 1] == c + e && (c + d)[|c + d| - 1] == d[n];
      match d[n]
      case Single(q, m) =>
        AmpConcat(h, c, e, v, b - {q});
        AmpConcat(h, c, e, v, b + {q});
      case Controlled(o) =>
        AmpConcat(h, c, e, v, OpBits(o, b));
      case Turned(t) =>
        AmpConcat(h, c, e, v, b);
    }
  }

  /** Circuits are linear. */
  lemma {:induction false} AmpScales(h: Circle, c: Circuit, v: Vec, w: Vec, g: Complex, b: Bits)
    requires forall x: Bits :: w(x) == Mul(g, v(x))
    ensures Amp(h, c, w, b) == Mul(g, Amp(h, c, v, b))
    decreases |c|
  {
    if c != [] {
      var n := |c| - 1;
      match c[n]
      case Single(q, m) =>
        AmpScales(h, c[..n], v, w, g, b - {q});
        AmpScales(h, c[..n], v, w, g, b + {q});
        var x, y := Amp(h, c[..n], v, b - {q}), Amp(h, c[..n], v, b + {q});
        LinScales(g, m.a, x, m.b, y);
        LinScales(g, m.c, x, m.d, y);
        hide Mul, Lin;
      case Controlled(o) =>
        AmpScales(h, c[..n], v, w, g, OpBits(o, b));
        Swapped(g, Phase(h, OpArg(o, b)), Amp(h, c[..n], v, OpBits(o, b)));
        hide Mul;
      case Turned(d) =>
        AmpScales(h, c[..n], v, w, g, b);
        Swapped(g, Phase(h, d(b)), Amp(h, c[..n], v, b));
        hide Mul;
    }
  }

  lemma SameRefl(h: Circle, c: Circuit)
    ensures Same(h, c, c)
  {
    forall v: Vec, b: Bits ensures Amp(h, c, v, b) == Mul(ONE, Amp(h, c, v, b)) {
      Units(Amp(h, c, v, b));
    }
    hide Amp;
    assert SameBy(h, c, c, ONE);
  }

  lemma SameTrans(h: Circle, c: Circuit, d: Circuit, e: Circuit)
    requires Same(h, c, d) && Same(h, d, e)
    ensures Same(h, c, e)
  {
    var f :| SameBy(h, c, d, f);
    var g :| SameBy(h, d, e, g);
    hide Amp;
    UnitMul(g, f);
    forall v: Vec, b: Bits ensures Amp(h, e, v, b) == Mul(Mul(g, f), Amp(h, c, v, b)) {
      assert Amp(h, d, v, b) == Mul(f, Amp(h, c, v, b));
      MulAssoc(g, f, Amp(h, c, v, b));
      hide Mul;
    }
    assert SameBy(h, c, e, Mul(g, f));
  }

  lemma SameSym(h: Circle, c: Circuit, d: Circuit)
    requires Same(h, c, d)
    ensures Same(h, d, c)
  {
    var g :| SameBy(h, c, d, g);
    hide Amp;
    UnitInverse(g);
    forall v: Vec, b: Bits ensures Amp(h, c, v, b) == Mul(Conj(g), Amp(h, d, v, b)) {
      MulAssoc(Conj(g), g, Amp(h, c, v, b));
      Units(Amp(h, c, v, b));
      hide Mul;
    }
    assert SameBy(h, d, c, Conj(g));
  }

  lemma SamePrefix(h: Circle, p: Circuit, c: Circuit, d: Circuit)
    requires Same(h, c, d)
    ensures Same(h, p + c, p + d)
  {
    var g :| SameBy(h, c, d, g);
    hide Amp, After;
    forall v: Vec, b: Bits ensures Amp(h, p + d, v, b) == Mul(g, Amp(h, p + c, v, b)) {
      AmpConcat(h, p, c, v, b);
      AmpConcat(h, p, d, v, b);
      hide Mul;
    }
    assert SameBy(h, p + c, p + d, g);
  }

  lemma SameSuffix(h: Circle, c: Circuit, d: Circuit, s: Circuit)
    requires Same(h, c, d)
    ensures Same(h, c + s, d + s)
  {
    var g :| SameBy(h, c, d, g);
    hide Amp;
    forall v: Vec, b: Bits ensures Amp(h, d + s, v, b) == Mul(g, Amp(h, c + s, v, b)) {
      AmpConcat(h, c, s, v, b);
      AmpConcat(h, d, s, v, b);
      forall x: Bits ensures After(h, d, v)(x) == Mul(g, After(h, c, v)(x)) {
      }
      AmpScales(h, s, After(h, c, v), After(h, d, v), g, b);
      hide Mul;
    }
    assert SameBy(h, c + s, d + s, g);
  }

  /** Replacing a part of a circuit. */
  lemma SameInside(h: Circle, p: Circuit, c: Circuit, d: Circuit, s: Circuit)
    requires Same(h, c, d)
    ensures Same(h, p + c + s, p + d + s)
  {
    SamePrefix(h, p, c, d);
    SameSuffix(h, p + c, p + d, s);
  }

  // Two gates in a row

  /** The amplitude after one single-qubit gate. */
  function OneGate(m: Mat, q: Qubit, v: Vec, b: Bits): Complex {
    if q in b then Lin(m.c, v(b - {q}), m.d, v(b + {q})) else Lin(m.a, v(b - {q}), m.b, v(b + {q}))
  }

  function OneOp(h: Circle, o: CtlOp, v: Vec, b: Bits): Complex {
    Mul(Phase(h, OpArg(o, b)), v(OpBits(o, b)))
  }

  function OneStep(h: Circle, g: Gate, v: Vec, b: Bits): Complex {
    match g
    case Single(q, m) => OneGate(m, q, v, b)
    case Controlled(o) => OneOp(h, o, v, b)
    case Turned(d) => Mul(Phase(h, d(b)), v(b))
  }

  lemma AmpOne(h: Circle, g: Gate, v: Vec, b: Bits)
    ensures Amp(h, [g], v, b) == OneStep(h, g, v, b)
  {
    assert [g][..0] == [];
    hide Mul, Lin;
  }

  /** Two gates: the second reads what the first has made. */
  function Made(h: Circle, g: Gate, v: Vec): Vec {
    (b: Bits) => OneStep(h, g, v, b)
  }

  lemma AmpTwo(h: Circle, f: Gate, g: Gate, v: Vec, b: Bits)
    ensures Amp(h, [f, g], v, b) == OneStep(h, g, Made(h, f, v), b)
  {
    assert [f, g][..1] == [f];
    hide Mul, Lin;
    forall x: Bits ensures Amp(h, [f], v, x) == Made(h, f, v)(x) {
      AmpOne(h, f, v, x);
    }
  }

  /** Two pairs of gates that make the same amplitudes are the same. */
  lemma SameTwo(h: Circle, f: Gate, g: Gate, f': Gate, g': Gate)
    requires forall v: Vec, b: Bits :: OneStep(h, g', Made(h, f', v), b) == OneStep(h, g, Made(h, f, v), b)
    ensures Same(h, [f, g], [f', g'])
  {
    hide Amp, OneStep, Made;
    forall v: Vec, b: Bits ensures Amp(h, [f', g'], v, b) == Mul(ONE, Amp(h, [f, g], v, b)) {
      AmpTwo(h, f, g, v, b);
      AmpTwo(h, f', g', v, b);
      Units(Amp(h, [f, g], v, b));
      hide Mul;
    }
    assert SameBy(h, [f, g], [f', g'], ONE);
  }
}
