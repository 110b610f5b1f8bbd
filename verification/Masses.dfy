/** The weight of a vector: the sum of the squared absolute values of its amplitudes, and what keeps it. */
module Masses {
  import opened Angles
  import opened Controls
  import opened Complexes
  import opened Circuits
  import opened CircuitRules
  import opened U3Matrices
  import opened U3Composition
  import opened CompiledGates
  import opened SparseParts
  import opened SparseSorting
  import opened SparseMeasure
  import opened DenseVectors
  import U = U3Gates

  // Squared absolute values

  function Product(x: real, y: real): real {
    x * y
  }

  lemma PositiveProduct(x: real, y: real)
    requires x > 0.0 && y > 0.0
    ensures Product(x, y) > 0.0
  {
  }

  lemma SquareSign(x: real)
    ensures Product(x, x) >= 0.0 && (Product(x, x) == 0.0 <==> x == 0.0)
  {
    if x > 0.0 {
      PositiveProduct(x, x);
    } else if x < 0.0 {
      var y := -x;
      PositiveProduct(y, y);
      assert x * x == y * y;
    }
  }

  function Square(x: real): (r: real)
    ensures r >= 0.0 && (r == 0.0 <==> x == 0.0)
  {
    SquareSign(x);
    Product(x, x)
  }

  /** |x| squared. */
  function Norm2(x: Complex): (r: real)
    ensures r >= 0.0 && (r == 0.0 <==> x == ZERO)
  {
    Square(x.re) + Square(x.im)
  }

  /** It is the product with the conjugate, 1 exactly on the unit circle, and multiplicative. */
  lemma NormIsProduct(x: Complex, y: Complex)
    ensures Norm2(x) == Mul(x, Conj(x)).re && Mul(x, Conj(x)).im == 0.0
    ensures IsUnit(x) <==> Norm2(x) == 1.0
    ensures Norm2(Mul(x, y)) == Product(Norm2(x), Norm2(y))
  {
    NormOfProduct(x.re, x.im, y.re, y.im);
  }

  lemma NormOfProduct(a: real, b: real, c: real, d: real)
    ensures (a * c - b * d) * (a * c - b * d) + (a * d + b * c) * (a * d + b * c) == (a * a + b * b) * (c * c + d * d)
  {
  }

  lemma UnitKeepsNorm(u: Complex, x: Complex)
    requires IsUnit(u)
    ensures Norm2(Mul(u, x)) == Norm2(x)
  {
    NormIsProduct(u, x);
    hide Norm2, Mul, IsUnit;
    assert Product(1.0, Norm2(x)) == Norm2(x);
  }

  lemma NormOfOne()
    ensures Norm2(ONE) == 1.0
  {
  }

  // Sums over states

  ghost function SumOver(s: set<Bits>, f: Bits -> real): real
    decreases |s|
  {
    if s == {} then 0.0
    else
      var b :| b in s;
      f(b) + SumOver(s - {b}, f)
  }

  lemma {:induction false} SumTake(s: set<Bits>, f: Bits -> real, b: Bits)
    requires b in s
    ensures SumOver(s, f) == f(b) + SumOver(s - {b}, f)
    decreases |s|
  {
    var c: Bits :| c in s && SumOver(s, f) == f(c) + SumOver(s - {c}, f);
    if c != b {
      SumTake(s - {c}, f, b);
      SumTake(s - {b}, f, c);
      assert s - {c} - {b} == s - {b} - {c};
    }
  }

  lemma {:induction false} SumSame(s: set<Bits>, f: Bits -> real, g: Bits -> real)
    requires forall b :: b in s ==> f(b) == g(b)
    ensures SumOver(s, f) == SumOver(s, g)
    decreases |s|
  {
    if s != {} {
      var b :| b in s;
      SumTake(s, f, b);
      SumTake(s, g, b);
      SumSame(s - {b}, f, g);
    }
  }

  /** States where the summand is zero may be left out. */
  lemma {:induction false} SumWider(s: set<Bits>, t: set<Bits>, f: Bits -> real)
    requires s <= t && forall b :: b in t && b !in s ==> f(b) == 0.0
    ensures SumOver(t, f) == SumOver(s, f)
    decreases |t|
  {
    if t == s {
    } else {
      var b :| b in t && b !in s;
      SumTake(t, f, b);
      SumWider(s, t - {b}, f);
    }
  }

  lemma ProductOfSum(k: real, x: real, y: real)
    ensures Product(k, x + y) == Product(k, x) + Product(k, y)
  {
  }

  lemma {:induction false} SumScales(s: set<Bits>, f: Bits -> real, g: Bits -> real, k: real)
    requires forall b :: b in s ==> g(b) == Product(k, f(b))
    ensures SumOver(s, g) == Product(k, SumOver(s, f))
    decreases |s|
  {
    if s != {} {
      var b :| b in s;
      SumTake(s, f, b);
      SumTake(s, g, b);
      SumScales(s - {b}, f, g, k);
      ProductOfSum(k, f(b), SumOver(s - {b}, f));
      hide Product;
    }
  }

  /** A one-to-one relabelling of the states does not change the sum. */
  lemma {:induction false} SumRelabelled(s: set<Bits>, t: set<Bits>, f: Bits -> real, g: Bits -> real, to: Bits -> Bits)
    requires (forall b :: b in s ==> to(b) in t && g(to(b)) == f(b)) && (forall b, c :: to(b) == to(c) ==> b == c)
    requires forall c :: c in t ==> exists b :: b in s && to(b) == c
    ensures SumOver(t, g) == SumOver(s, f)
    decreases |s|
  {
    if s == {} {
      assert t == {};
    } else {
      var b :| b in s;
      SumTake(s, f, b);
      SumTake(t, g, to(b));
      forall c | c in t - {to(b)} ensures exists x :: x in s - {b} && to(x) == c {
        var x :| x in s && to(x) == c;
        assert x in s - {b};
      }
      SumRelabelled(s - {b}, t - {to(b)}, f, g, to);
    }
  }

  /** The states of `s`, with the qubit set. */
  function WithBit(s: set<Bits>, q: Qubit): set<Bits> {
    set b | b in s :: b + {q}
  }

  lemma PairsWithout(s: set<Bits>, q: Qubit, b: Bits)
    requires b in s && forall c :: c in s ==> q !in c
    ensures s + WithBit(s, q) - {b} - {b + {q}} == s - {b} + WithBit(s - {b}, q)
  {
    var r := s - {b};
    forall c | c in WithBit(s, q) && c != b + {q} ensures c in WithBit(r, q) {
      var x :| x in s && x + {q} == c;
      assert x in r;
    }
    forall c | c in WithBit(r, q) ensures c in WithBit(s, q) && c != b + {q} && c != b {
      var x :| x in r && x + {q} == c;
      assert x == c - {q} && b + {q} - {q} == b;
    }
  }

  /** Summing over both values of a qubit is summing over its pairs. */
  lemma {:induction false} SumPairs(s: set<Bits>, q: Qubit, f: Bits -> real, g: Bits -> real)
    requires (forall b :: b in s ==> q !in b) && forall b :: b in s ==> f(b) + f(b + {q}) == g(b) + g(b + {q})
    ensures SumOver(s + WithBit(s, q), f) == SumOver(s + WithBit(s, q), g)
    decreases |s|
  {
    if s != {} {
      var b :| b in s;
      var c, t := b + {q}, s + WithBit(s, q);
      assert c in t && c != b;
      PairsWithout(s, q, b);
      SumPairs(s - {b}, q, f, g);
      hide WithBit;
      SumTake(t, f, b);
      SumTake(t, g, b);
      SumTake(t - {b}, f, c);
      SumTake(t - {b}, g, c);
    }
  }

  // Weights

  /** The squared absolute value of the amplitude of a state. */
  function NormAt(m: Stored): Bits -> real {
    (b: Bits) => Norm2(Value(m, b))
  }

  /** The weight of a stored vector. */
  ghost function Mass(m: Stored): real {
    SumOver(m.Keys, NormAt(m))
  }

  function SideStates(s: set<Bits>, q: Qubit, v: bool): set<Bits> {
    set b | b in s && (q in b) == v
  }

  /** The weight of the states that have the qubit at `v`. */
  ghost function SideMass(m: Stored, q: Qubit, v: bool): real {
    SumOver(SideStates(m.Keys, q, v), NormAt(m))
  }

  lemma {:induction false} SumSides(s: set<Bits>, q: Qubit, f: Bits -> real)
    ensures SumOver(s, f) == SumOver(SideStates(s, q, false), f) + SumOver(SideStates(s, q, true), f)
    decreases |s|
  {
    if s != {} {
      var b :| b in s;
      var v, r := q in b, s - {b};
      SumTake(s, f, b);
      SumTake(SideStates(s, q, v), f, b);
      assert SideStates(s, q, v) - {b} == SideStates(r, q, v) && SideStates(s, q, !v) == SideStates(r, q, !v);
      SumSides(r, q, f);
    }
  }

  lemma SidesAddUp(m: Stored, q: Qubit)
    ensures Mass(m) == SideMass(m, q, false) + SideMass(m, q, true)
  {
    SumSides(m.Keys, q, NormAt(m));
  }

  /** Vectors with the same amplitudes have the same weight, whichever zeros they store. */
  lemma SameMass(m: Stored, n: Stored)
    requires forall b :: Norm2(Value(m, b)) == Norm2(Value(n, b))
    ensures Mass(m) == Mass(n) && forall q, v :: SideMass(m, q, v) == SideMass(n, q, v)
  {
    hide Norm2;
    var s := m.Keys + n.Keys;
    forall q, v ensures SideMass(m, q, v) == SideMass(n, q, v) {
      SumWider(SideStates(m.Keys, q, v), SideStates(s, q, v), NormAt(m));
      SumWider(SideStates(n.Keys, q, v), SideStates(s, q, v), NormAt(n));
      SumSame(SideStates(s, q, v), NormAt(m), NormAt(n));
    }
    SidesAddUp(m, 0);
    SidesAddUp(n, 0);
  }

  // Unitary gates

  /** The matrix keeps the weight of every pair of amplitudes. */
  ghost predicate KeepsNorm(m: Mat) {
    forall x, y {:trigger Lin(m.a, x, m.b, y)} :: NormsKept(m, x, y)
  }

  predicate NormsKept(m: Mat, x: Complex, y: Complex) {
    Norm2(Lin(m.a, x, m.b, y)) + Norm2(Lin(m.c, x, m.d, y)) == Norm2(x) + Norm2(y)
  }

  lemma NormsKeptBy(m: Mat, x: Complex, y: Complex)
    requires KeepsNorm(m)
    ensures NormsKept(m, x, y)
  {
    hide NormsKept;
    var z := Lin(m.a, x, m.b, y);
  }

  lemma TimesKeepsNorm(m: Mat, n: Mat)
    requires KeepsNorm(m) && KeepsNorm(n)
    ensures KeepsNorm(Times(n, m))
  {
    var t := Times(n, m);
    forall x, y ensures NormsKept(t, x, y) {
      var u, w := Lin(m.a, x, m.b, y), Lin(m.c, x, m.d, y);
      NormsKeptBy(m, x, y);
      NormsKeptBy(n, u, w);
      LinCombines(n.a, n.b, m.a, m.b, m.c, m.d, x, y);
      LinCombines(n.c, n.d, m.a, m.b, m.c, m.d, x, y);
      hide Lin, Norm2, KeepsNorm;
    }
  }

  lemma RzKeepsNorm(h: Circle, a: int)
    requires IsCircle(h)
    ensures KeepsNorm(RzMat(h, a))
  {
    var p := Phase(h, a);
    RzMatOf(h, a);
    hide IsCircle, Phase, RzMat, Lin, Mul, Add, IsUnit, Norm2, NormsKept;
    forall x, y ensures NormsKept(Mat(ONE, ZERO, ZERO, p), x, y) {
      DiagonalKeepsNorm(p, x, y);
    }
  }

  lemma RzMatOf(h: Circle, a: int)
    requires IsCircle(h)
    ensures RzMat(h, a) == Mat(ONE, ZERO, ZERO, Phase(h, a)) && IsUnit(Phase(h, a))
  {
    PhaseAdds(h, a, 0);
    hide Phase, IsCircle;
  }

  lemma DiagonalKeepsNorm(p: Complex, x: Complex, y: Complex)
    requires IsUnit(p)
    ensures NormsKept(Mat(ONE, ZERO, ZERO, p), x, y)
  {
    hide Mul, Norm2, Add, IsUnit;
    Units(x);
    Units(y);
    Units(Mul(p, y));
    UnitKeepsNorm(p, y);
  }

  /** Half-angle cosines and sines are real, and their squares add up to one. */
  lemma HalfAnglesReal(h: Circle, t: int)
    requires IsCircle(h)
    ensures CosHalf(h, t) == Complex(h(t).re, 0.0) && SinHalf(h, t) == Complex(h(t).im, 0.0)
    ensures h(t).re * h(t).re + h(t).im * h(t).im == 1.0
  {
    var x := h(t);
    CircleZero(h);
    CircleAdd(h, t, -t);
    hide IsCircle;
    UnitInverse(x);
    BackIsConj(x, h(-t));
    HalvesOfConj(x);
  }

  lemma BackIsConj(x: Complex, y: Complex)
    requires IsUnit(x) && Mul(x, y) == ONE
    ensures y == Conj(x)
  {
    UnitInverse(x);
    MulAssoc(Conj(x), x, y);
    Units(y);
    Units(Conj(x));
    hide Mul, Conj;
  }

  lemma HalvesOfConj(x: Complex)
    ensures Mul(HALF, Add(x, Conj(x))) == Complex(x.re, 0.0)
    ensures Mul(HALF_MINUS_I, Add(x, Minus(Conj(x)))) == Complex(x.im, 0.0)
  {
  }

  lemma RyKeepsNorm(h: Circle, t: int)
    requires IsCircle(h)
    ensures KeepsNorm(RyMat(h, t))
  {
    var m := RyMat(h, t);
    HalfAnglesReal(h, t);
    var c, s := h(t).re, h(t).im;
    assert m == Mat(Complex(c, 0.0), Complex(-s, -0.0), Complex(s, 0.0), Complex(c, 0.0));
    hide IsCircle, CosHalf, SinHalf, RyMat;
    forall x, y ensures NormsKept(m, x, y) {
      TurnKeepsNorm(c, s, x, y);
    }
  }

  lemma TurnKeepsNorm(c: real, s: real, x: Complex, y: Complex)
    requires c * c + s * s == 1.0
    ensures NormsKept(Mat(Complex(c, 0.0), Complex(-s, -0.0), Complex(s, 0.0), Complex(c, 0.0)), x, y)
  {
    var m := Mat(Complex(c, 0.0), Complex(-s, -0.0), Complex(s, 0.0), Complex(c, 0.0));
    var u, w := Lin(m.a, x, m.b, y), Lin(m.c, x, m.d, y);
    var z := -0.0;
    assert Complex(-s, z) == Complex(-s, 0.0);
    RealLin(c, -s, x, y);
    RealLin(s, c, x, y);
    hide Lin;
    RealTurn(c, s, x.re, y.re, u.re, w.re);
    RealTurn(c, s, x.im, y.im, u.im, w.im);
    hide Square;
  }

  lemma RealLin(c: real, s: real, x: Complex, y: Complex)
    ensures Lin(Complex(c, 0.0), x, Complex(s, 0.0), y) == Complex(c * x.re + s * y.re, c * x.im + s * y.im)
  {
  }

  lemma RealTurn(c: real, s: real, x: real, y: real, u: real, w: real)
    requires c * c + s * s == 1.0 && u == c * x + -s * y && w == s * x + c * y
    ensures Square(u) + Square(w) == Square(x) + Square(y)
  {
    assert u * u + w * w == (c * c + s * s) * (x * x + y * y);
  }

  /** Every single-qubit gate is unitary. */
  lemma GatesKeepNorm(h: Circle, g: U.U3)
    requires IsCircle(h)
    ensures KeepsNorm(Matrix(h, g))
  {
    hide *;
    MatrixIs(h, g);
    EulerIs(h, g.theta, g.phi, g.lambda);
    RzKeepsNorm(h, g.lambda);
    RyKeepsNorm(h, g.theta);
    RzKeepsNorm(h, g.phi);
    TimesKeepsNorm(RzMat(h, g.lambda), RyMat(h, g.theta));
    TimesKeepsNorm(Times(RyMat(h, g.theta), RzMat(h, g.lambda)), RzMat(h, g.phi));
  }

  /** Applying a unitary gate keeps the weight. */
  lemma GateKeepsMass(m: Stored, m': Stored, n: Mat, q: Qubit)
    requires IsGated(m', m, GateOf(n), q) && KeepsNorm(n)
    ensures Mass(m') == Mass(m)
  {
    hide IsGated, GateOf, KeepsNorm, Norm2;
    var s := set b | b in m.Keys + m'.Keys :: b - {q};
    var t := s + WithBit(s, q);
    PairsCover(m.Keys + m'.Keys, s, q);
    forall b | b in s ensures NormAt(m')(b) + NormAt(m')(b + {q}) == NormAt(m)(b) + NormAt(m)(b + {q}) {
      PairKept(m, m', n, q, b);
    }
    SumWider(m.Keys, t, NormAt(m));
    SumWider(m'.Keys, t, NormAt(m'));
    SumPairs(s, q, NormAt(m'), NormAt(m));
  }

  lemma PairsCover(keys: set<Bits>, s: set<Bits>, q: Qubit)
    requires s == set b | b in keys :: b - {q}
    ensures keys <= s + WithBit(s, q) && forall b :: b in s ==> q !in b
  {
    forall b | b in keys ensures b in s + WithBit(s, q) {
      assert b - {q} in s;
      if q in b {
        assert b == b - {q} + {q};
      } else {
        assert b == b - {q};
      }
    }
  }

  lemma PairKept(m: Stored, m': Stored, n: Mat, q: Qubit, b: Bits)
    requires IsGated(m', m, GateOf(n), q) && KeepsNorm(n) && q !in b
    ensures NormAt(m')(b) + NormAt(m')(b + {q}) == NormAt(m)(b) + NormAt(m)(b + {q})
  {
    hide IsGated, GateOf, KeepsNorm, Norm2, Lin, Value;
    var x, y := Value(m, b), Value(m, b + {q});
    GatedValue(m, m', n, q, b);
    GatedValue(m, m', n, q, b + {q});
    NormsKeptBy(n, x, y);
    assert b - {q} == b && b + {q} - {q} == b && b + {q} + {q} == b + {q};
    DenseIs(m, b);
    DenseIs(m, b + {q});
    hide Dense;
  }

  // Relabelling and measuring

  lemma TurnsKeepNorm(h: Circle, phases: seq<Angle>, x: Complex)
    requires IsCircle(h)
    ensures Norm2(Rotate(Turn(h), phases, x)) == Norm2(x)
  {
    if phases != [] {
      var n := |phases| - 1;
      TurnsKeepNorm(h, phases[..n], x);
      PhaseAdds(h, phases[n], 0);
      hide IsCircle, Phase, Norm2;
      UnitKeepsNorm(Phase(h, phases[n]), Rotate(Turn(h), phases[..n], x));
    }
  }

  /** Relabelling by code keeps the weight. */
  lemma RelabelKeepsMass(h: Circle, m: Stored, m': Stored, code: seq<Compiled>)
    requires IsCircle(h) && Relabelled(m, m', code, Turn(h)) && forall b, c :: BitsAll(code, b) == BitsAll(code, c) ==> b == c
    ensures Mass(m') == Mass(m)
  {
    hide IsCircle, Norm2, Turn;
    var to := (b: Bits) => BitsAll(code, b);
    forall b | b in m.Keys ensures to(b) in m'.Keys && NormAt(m')(to(b)) == NormAt(m)(b) {
      TurnsKeepNorm(h, PhasesAll(code, b), m[b]);
    }
    forall c | c in m'.Keys ensures exists b :: b in m.Keys && to(b) == c {
      var b :| b in m && BitsAll(code, b) == c;
      assert to(b) == c;
    }
    hide BitsAll, PhasesAll;
    SumRelabelled(m.Keys, m'.Keys, NormAt(m), NormAt(m'), to);
  }

  /** What a measurement keeps, it scales. */
  lemma MeasuredMass(m: Stored, q: Qubit, v: bool, f: Complex -> Complex, s: Complex)
    requires forall x :: f(x) == Mul(s, x)
    ensures Mass(Measured(m, q, v, f)) == Product(Norm2(s), SideMass(m, q, v))
  {
    var m' := Measured(m, q, v, f);
    var t := SideStates(m.Keys, q, v);
    assert m'.Keys == t;
    hide Norm2, Mul, Product;
    forall b | b in t ensures NormAt(m')(b) == Product(Norm2(s), NormAt(m)(b)) {
      NormIsProduct(s, m[b]);
    }
    SumScales(t, NormAt(m), NormAt(m'), Norm2(s));
  }
}
