/**
 Normal forms of gates (`src/u3.rs`): only the zero angle has the phase one, and so every gate has one normalised form.
 The angles of gates that are made and composed are determined by what the gates do.
 */
module U3NormalForms {
  import opened Angles
  import opened Complexes
  import opened Circuits
  import opened CircuitRules
  import opened U3Matrices
  import opened U3Composition
  import U = U3Gates

  // The kernel of the circle

  lemma DoubledIsOne(h: Circle, x: int)
    requires IsCircle(h) && h(x) == ONE
    ensures h(2 * x) == ONE
  {
    hide *;
    CircleAdd(h, x, x);
    Units(ONE);
  }

  lemma {:induction false} OddTurns(h: Circle, z: int)
    requires IsCircle(h)
    ensures h(TURN + z * (2 * TURN)) == h(TURN)
    decreases if z < 0 then -z else z
  {
    CircleValues(h);
    hide *;
    if z > 0 {
      OddTurns(h, z - 1);
      OneTurnMore(h, TURN + (z - 1) * (2 * TURN));
    } else if z < 0 {
      OddTurns(h, z + 1);
      OneTurnMore(h, TURN + z * (2 * TURN));
    }
  }

  lemma OneTurnMore(h: Circle, x: int)
    requires IsCircle(h) && h(2 * TURN) == ONE
    ensures h(x + 2 * TURN) == h(x)
  {
    hide *;
    CircleAdd(h, x, 2 * TURN);
    Units(h(x));
  }

  /** A number with the phase one that doubling often enough takes to whole turns is one itself. */
  lemma {:induction false} KernelFrom(h: Circle, x: int, y: int, unit: int, n: nat)
    requires IsCircle(h) && h(x) == ONE
    requires x == unit * y && unit * Pow2(n) == 2 * TURN
    ensures x % (2 * TURN) == 0
    decreases n
  {
    if n == 0 {
      WholeTurns(x, y);
    } else {
      DoubledIsOne(h, x);
      assert 2 * x == (2 * unit) * y && (2 * unit) * Pow2(n - 1) == 2 * TURN;
      KernelFrom(h, 2 * x, y, 2 * unit, n - 1);
      HalfOfTurns(h, x);
    }
  }

  lemma WholeTurns(x: int, y: int)
    requires x == 2 * TURN * y
    ensures x % (2 * TURN) == 0
  {
  }

  lemma HalfOfTurns(h: Circle, x: int)
    requires IsCircle(h) && h(x) == ONE && (2 * x) % (2 * TURN) == 0
    ensures x % (2 * TURN) == 0
  {
    var w := x / TURN;
    assert x == w * TURN;
    if w % 2 == 1 {
      assert x == TURN + (w / 2) * (2 * TURN);
      OddTurns(h, w / 2);
      CircleValues(h);
      assert false;
    } else {
      assert x == 2 * TURN * (w / 2);
    }
  }

  lemma Kernel(h: Circle, x: int)
    requires IsCircle(h) && h(x) == ONE
    ensures x % (2 * TURN) == 0
  {
    Pow2At64();
    assert Pow2(65) == 2 * TURN;
    hide IsCircle;
    KernelFrom(h, x, x, 1, 65);
  }

  /** An angle has the phase one if and only if it is zero. */
  lemma PhaseOneIff(h: Circle, a: Angle)
    requires IsCircle(h)
    ensures Phase(h, a) == ONE <==> a == 0
  {
    hide IsCircle;
    CircleZero(h);
    if Phase(h, a) == ONE {
      Kernel(h, 2 * a);
    }
  }

  // Zeros of sine and cosine

  lemma UnitCancels(u: Complex, x: Complex)
    requires IsUnit(u) && Mul(u, x) == ZERO
    ensures x == ZERO
  {
    UnitInverse(u);
    MulAssoc(Conj(u), u, x);
    Units(x);
    Units(Conj(u));
    hide Mul;
  }

  lemma SameBothWays(h: Circle, t: int)
    requires IsCircle(h) && h(t) == h(-t)
    ensures h(2 * t) == ONE
  {
    hide *;
    CircleZero(h);
    CircleAdd(h, t, t);
    CircleAdd(h, t, -t);
  }

  lemma OppositeWays(h: Circle, t: int)
    requires IsCircle(h) && h(t) == Minus(h(-t))
    ensures h(2 * t + TURN) == ONE
  {
    CircleValues(h);
    hide *;
    var x, y, u := h(t), h(-t), t + TURN;
    CircleZero(h);
    CircleAdd(h, t, -t);
    assert Mul(x, y) == ONE;
    CircleAdd(h, t, TURN);
    MinusOfMinus(x, y);
    MulCommutes(Minus(ONE), x);
    assert h(u) == y;
    CircleAdd(h, t, u);
    assert t + u == 2 * t + TURN;
  }

  lemma MinusOfMinus(x: Complex, y: Complex)
    requires x == Minus(y)
    ensures Mul(Minus(ONE), x) == y
  {
    TimesI(x);
    MinusOf(x);
    MinusOf(y);
    hide *;
  }

  lemma SinZero(h: Circle, t: int)
    requires IsCircle(h) && SinHalf(h, t) == ZERO
    ensures (2 * t) % (2 * TURN) == 0
  {
    hide IsCircle;
    HalvesCancel(h(t), h(-t));
    SameBothWays(h, t);
    Kernel(h, 2 * t);
  }

  lemma CosZero(h: Circle, t: int)
    requires IsCircle(h) && CosHalf(h, t) == ZERO
    ensures (2 * t + TURN) % (2 * TURN) == 0
  {
    hide IsCircle;
    HalvesCancel(h(t), h(-t));
    OppositeWays(h, t);
    Kernel(h, 2 * t + TURN);
  }

  lemma HalvesCancel(x: Complex, y: Complex)
    ensures Mul(HALF_MINUS_I, Add(x, Minus(y))) == ZERO ==> x == y
    ensures Mul(HALF, Add(x, y)) == ZERO ==> x == Minus(y)
  {
    hide Mul;
    var z, w := Add(x, Minus(y)), Add(x, y);
    assert z == Complex(x.re - y.re, x.im - y.im) && w == Complex(x.re + y.re, x.im + y.im);
    assert Minus(y) == Complex(-y.re, -y.im);
    NoHalf(z);
    NoHalf(w);
  }

  lemma NoHalf(z: Complex)
    ensures Mul(HALF_MINUS_I, z) == ZERO ==> z == Complex(0.0, 0.0)
    ensures Mul(HALF, z) == ZERO ==> z == Complex(0.0, 0.0)
  {
    assert 0.0 * z.re == 0.0 && 0.0 * z.im == 0.0;
    assert Mul(HALF_MINUS_I, z).re == 0.5 * z.im && Mul(HALF_MINUS_I, z).im == -0.5 * z.re;
    assert Mul(HALF, z).re == 0.5 * z.re && Mul(HALF, z).im == 0.5 * z.im;
  }

  lemma BelowOneTurn(t: Angle)
    ensures (2 * t) % (2 * TURN) == 0 ==> t == 0
    ensures (2 * t + TURN) % (2 * TURN) == 0 ==> t == PI
  {
    var n: int := t;
    assert (2 * n) % (2 * TURN) == 2 * n;
    if 2 * n < TURN {
      assert (2 * n + TURN) % (2 * TURN) == 2 * n + TURN;
    } else {
      assert 2 * n + TURN == 2 * n - TURN + 1 * (2 * TURN);
      assert (2 * n + TURN) % (2 * TURN) == 2 * n - TURN;
    }
  }

  lemma SinZeroIff(h: Circle, t: Angle)
    requires IsCircle(h)
    ensures SinHalf(h, t) == ZERO <==> t == 0
  {
    hide IsCircle;
    HalfValues(h);
    if SinHalf(h, t) == ZERO {
      SinZero(h, t);
    }
    BelowOneTurn(t);
    hide *;
  }

  lemma CosZeroIff(h: Circle, t: Angle)
    requires IsCircle(h)
    ensures CosHalf(h, t) == ZERO <==> t == PI
  {
    hide IsCircle;
    HalfValues(h);
    if CosHalf(h, t) == ZERO {
      CosZero(h, t);
    }
    BelowOneTurn(t);
    hide *;
  }

  /** The matrix is diagonal exactly for the angle zero, and antidiagonal exactly for the half turn. */
  lemma ShapeIff(h: Circle, g: U.U3)
    requires IsCircle(h)
    ensures IsDiagonal(Matrix(h, g)) <==> g.theta == 0
    ensures IsAntidiagonal(Matrix(h, g)) <==> g.theta == PI
  {
    hide IsCircle, CosHalf, SinHalf, Phase;
    SinZeroIff(h, g.theta);
    CosZeroIff(h, g.theta);
    var c, s := CosHalf(h, g.theta), SinHalf(h, g.theta);
    var p := Phase(h, g.phi);
    PhaseAdds(h, g.phi, 0);
    PhaseAdds(h, g.phi + g.lambda, 0);
    Units(p);
    Units(Phase(h, g.lambda));
    Units(Phase(h, g.phi + g.lambda));
    if Mul(p, s) == ZERO {
      UnitCancels(p, s);
    }
    assert Minus(ZERO) == ZERO;
    hide Mul, Minus;
  }

  // One normal form for every gate

  lemma CircleConj(h: Circle, x: int)
    requires IsCircle(h)
    ensures h(-x) == Conj(h(x))
  {
    UnitInverse(h(x));
    CircleBack(h, x, h(x), Conj(h(x)));
  }

  lemma EqualValues(h: Circle, x: int, y: int)
    requires IsCircle(h) && h(x) == h(y)
    ensures (x - y) % (2 * TURN) == 0
  {
    hide *;
    CircleZero(h);
    CircleAdd(h, x, -y);
    CircleAdd(h, y, -y);
    assert x + -y == x - y;
    Kernel(h, x - y);
  }

  /** Points of the circle with one real part are equal or conjugate. */
  lemma EqualRealParts(h: Circle, x: int, y: int)
    requires IsCircle(h) && h(x).re == h(y).re
    ensures (x - y) % (2 * TURN) == 0 || (x + y) % (2 * TURN) == 0
  {
    CircleAdd(h, x, 0);
    CircleAdd(h, y, 0);
    SquaresAgree(h(x).im, h(y).im, h(x).re);
    CircleConj(h, y);
    hide IsCircle;
    if h(x).im == h(y).im {
      EqualValues(h, x, y);
    } else {
      assert h(x) == h(-y);
      EqualValues(h, x, -y);
      assert x - -y == x + y;
    }
  }

  lemma SquaresAgree(a: real, b: real, r: real)
    requires r * r + a * a == 1.0 && r * r + b * b == 1.0
    ensures a == b || a == -b
  {
    assert (a - b) * (a + b) == 0.0;
  }

  lemma Doubled(h: Circle, t: int)
    requires IsCircle(h)
    ensures h(2 * t).re == 2.0 * (h(t).re * h(t).re) - 1.0
  {
    CircleAdd(h, t, t);
    assert t + t == 2 * t;
    hide IsCircle;
  }

  lemma RealHalves(h: Circle, t: int)
    requires IsCircle(h)
    ensures CosHalf(h, t) == Complex(h(t).re, 0.0) && SinHalf(h, t) == Complex(h(t).im, 0.0)
  {
    CircleConj(h, t);
    hide IsCircle;
    HalvesOf(h(t));
  }

  lemma HalvesOf(x: Complex)
    ensures Mul(HALF, Add(x, Conj(x))) == Complex(x.re, 0.0) && Mul(HALF_MINUS_I, Add(x, Minus(Conj(x)))) == Complex(x.im, 0.0)
  {
    var y, z := Add(x, Conj(x)), Add(x, Minus(Conj(x)));
    assert y == Complex(x.re + x.re, x.im - x.im) && z == Complex(x.re - x.re, x.im + x.im);
    assert 0.0 * y.re == 0.0 && 0.0 * z.re == 0.0 && 0.0 * z.im == 0.0;
    assert Mul(HALF, y).re == 0.5 * y.re && Mul(HALF, y).im == 0.5 * y.im;
    assert Mul(HALF_MINUS_I, z).re == 0.5 * z.im && Mul(HALF_MINUS_I, z).im == -0.5 * z.re;
  }

  lemma UnitKeepsSquare(u: Complex, x: real, y: real)
    requires IsUnit(u) && Mul(u, Complex(x, 0.0)) == Complex(y, 0.0)
    ensures x * x == y * y && (x != 0.0 && x == y ==> u == ONE)
  {
    assert u.re * 0.0 == 0.0 && u.im * 0.0 == 0.0;
    assert u.re * x == y && u.im * x == 0.0;
    if x != 0.0 {
      assert u.im == 0.0;
      assert u.re * u.re == 1.0;
      assert y * y == (u.re * u.re) * (x * x);
      if x == y {
        assert (u.re - 1.0) * x == 0.0;
      }
    } else {
      assert y == 0.0;
    }
  }

  lemma SameTheta(h: Circle, t: Angle, s: Angle)
    requires IsCircle(h) && t <= PI && s <= PI && h(t).re * h(t).re == h(s).re * h(s).re
    ensures t == s
  {
    Doubled(h, t);
    Doubled(h, s);
    hide IsCircle;
    var x: int, y: int := t, s;
    EqualRealParts(h, 2 * x, 2 * y);
    FirstHalf(x, y);
  }

  lemma FirstHalf(x: int, y: int)
    requires 0 <= x <= PI && 0 <= y <= PI
    requires (2 * x - 2 * y) % (2 * TURN) == 0 || (2 * x + 2 * y) % (2 * TURN) == 0
    ensures x == y
  {
    var d, e := 2 * x - 2 * y, 2 * x + 2 * y;
    if e % (2 * TURN) == 0 {
      assert e == 2 * TURN * (e / (2 * TURN));
      assert 0 <= e <= 2 * TURN;
    } else {
      assert d == 2 * TURN * (d / (2 * TURN));
      assert -2 * TURN < d < 2 * TURN;
    }
  }

  lemma SamePhase(h: Circle, a: Angle, b: Angle)
    requires IsCircle(h) && Phase(h, a) == Phase(h, b)
    ensures a == b
  {
    hide IsCircle;
    var x: int, y: int := a, b;
    EqualValues(h, 2 * x, 2 * y);
    var d := 2 * x - 2 * y;
    assert d == 2 * TURN * (d / (2 * TURN));
    assert -2 * TURN < d < 2 * TURN;
  }

  lemma RealCancels(x: Complex, y: Complex, s: real)
    requires s != 0.0 && Mul(x, Complex(s, 0.0)) == Mul(y, Complex(s, 0.0))
    ensures x == y
  {
    assert x.im * 0.0 == 0.0 && y.im * 0.0 == 0.0 && x.re * 0.0 == 0.0 && y.re * 0.0 == 0.0;
    assert x.re * s == y.re * s && x.im * s == y.im * s;
    assert (x.re - y.re) * s == 0.0 && (x.im - y.im) * s == 0.0;
  }

  /** A gate that superposes: its angles are read off its matrix. */
  lemma NormalSuperposes(h: Circle, g: U.U3, k: U.U3)
    requires IsCircle(h) && Alike(Matrix(h, g), Matrix(h, k))
    requires 0 < g.theta < PI && 0 < k.theta < PI
    ensures g == k
  {
    var m, n := Matrix(h, g), Matrix(h, k);
    var u :| IsUnit(u) && n == ScaleMat(u, m);
    RealHalves(h, g.theta);
    RealHalves(h, k.theta);
    CosZeroIff(h, g.theta);
    SinZeroIff(h, g.theta);
    hide IsCircle, CosHalf, SinHalf, Mul, Phase;
    var c, s := h(g.theta).re, h(g.theta).im;
    UnitKeepsSquare(u, c, h(k.theta).re);
    SameTheta(h, g.theta, k.theta);
    assert c != 0.0 && s != 0.0;
    Units(m.b);
    Units(m.c);
    RealCancels(Phase(h, g.phi), Phase(h, k.phi), s);
    MinusCancels(Mul(Phase(h, g.lambda), Complex(s, 0.0)), Mul(Phase(h, k.lambda), Complex(s, 0.0)));
    RealCancels(Phase(h, g.lambda), Phase(h, k.lambda), s);
    SamePhase(h, g.phi, k.phi);
    SamePhase(h, g.lambda, k.lambda);
  }

  lemma MinusCancels(x: Complex, y: Complex)
    requires Minus(x) == Minus(y)
    ensures x == y
  {
    assert -x.re == -y.re && -x.im == -y.im;
  }

  /** A gate that does not. */
  lemma NormalTurns(h: Circle, g: U.U3, k: U.U3)
    requires IsCircle(h) && Alike(Matrix(h, g), Matrix(h, k))
    requires g.theta == k.theta && (g.theta == 0 || g.theta == PI) && g.lambda == 0 && k.lambda == 0
    ensures g == k
  {
    hide IsCircle, Matrix, Mul, Minus, Phase;
    var m, n := Matrix(h, g), Matrix(h, k);
    var u :| IsUnit(u) && n == ScaleMat(u, m);
    ShapeOfTurns(h, g);
    ShapeOfTurns(h, k);
    if g.theta == PI {
      MulMinusOne(u);
    } else {
      Units(u);
    }
    assert u == ONE;
    Units(Phase(h, g.phi));
    SamePhase(h, g.phi, k.phi);
  }

  lemma ShapeOfTurns(h: Circle, g: U.U3)
    requires IsCircle(h) && g.lambda == 0
    ensures g.theta == 0 ==> Matrix(h, g).a == ONE && Matrix(h, g).d == Phase(h, g.phi)
    ensures g.theta == PI ==> Matrix(h, g).b == Minus(ONE) && Matrix(h, g).c == Phase(h, g.phi)
  {
    hide IsCircle, Euler, Phase, Minus;
    EulerAtZero(h, g.phi, 0);
    HalfTurnAt(h, g.phi);
    assert g.phi + 0 == g.phi;
  }

  lemma HalfTurnAt(h: Circle, phi: int)
    requires IsCircle(h)
    ensures Euler(h, PI, phi, 0).b == Minus(ONE) && Euler(h, PI, phi, 0).c == Phase(h, phi)
  {
    hide IsCircle, CosHalf, SinHalf, Mul, Minus, Phase;
    HalfValues(h);
    CircleZero(h);
    Units(Phase(h, phi));
    Units(ONE);
  }

  lemma MulMinusOne(u: Complex)
    requires Mul(u, Minus(ONE)) == Minus(ONE)
    ensures u == ONE
  {
    MulCommutes(u, Minus(ONE));
    TimesI(u);
    MinusCancels(u, ONE);
  }

  /** Two normalised gates do the same, up to global phase, if and only if they are the same. */
  lemma NormalIsUnique(h: Circle, g: U.U3, k: U.U3)
    requires IsCircle(h) && IsNormal(g) && IsNormal(k)
    ensures Alike(Matrix(h, g), Matrix(h, k)) <==> g == k
  {
    hide IsCircle, Alike, Matrix, IsDiagonal, IsAntidiagonal;
    AlikeRefl(Matrix(h, g));
    if Alike(Matrix(h, g), Matrix(h, k)) {
      ShapeIff(h, g);
      ShapeIff(h, k);
      AlikeSym(Matrix(h, g), Matrix(h, k));
      AlikeShape(Matrix(h, g), Matrix(h, k));
      AlikeShape(Matrix(h, k), Matrix(h, g));
      if g.theta == 0 || g.theta == PI {
        NormalTurns(h, g, k);
      } else {
        NormalSuperposes(h, g, k);
      }
    }
  }

  lemma AlikeShape(m: Mat, n: Mat)
    requires Alike(m, n)
    ensures (IsDiagonal(m) ==> IsDiagonal(n)) && (IsAntidiagonal(m) ==> IsAntidiagonal(n))
  {
    var g :| IsUnit(g) && n == ScaleMat(g, m);
    Units(g);
    hide Mul;
  }

  /** The composition of these two gates is exact. */
  ghost predicate ExactPair(h: Circle, numeric: U.Numeric, a: U.U3, b: U.U3) {
    IsExact(h, numeric, a.theta, Wrap(a.phi + b.lambda), b.theta)
  }

  /** Exact compositions do not depend on how they are bracketed: the angles come out the same. */
  lemma ComposeAssociates(h: Circle, numeric: U.Numeric, a: U.U3, b: U.U3, c: U.U3)
    requires IsCircle(h) && ExactPair(h, numeric, a, b) && ExactPair(h, numeric, b, c)
    requires ExactPair(h, numeric, U.Compose(numeric, a, b), c) && ExactPair(h, numeric, a, U.Compose(numeric, b, c))
    ensures U.Compose(numeric, U.Compose(numeric, a, b), c) == U.Compose(numeric, a, U.Compose(numeric, b, c))
  {
    var ab, bc := U.Compose(numeric, a, b), U.Compose(numeric, b, c);
    var l, r := U.Compose(numeric, ab, c), U.Compose(numeric, a, bc);
    var x, y, z := Matrix(h, a), Matrix(h, b), Matrix(h, c);
    hide IsCircle, Alike, Matrix, Times, IsExact, U.Compose, IsNormal;
    ComposesNormal(numeric, ab, c, 0, 0, 0);
    ComposesNormal(numeric, a, bc, 0, 0, 0);
    ComposeIsProduct(h, numeric, a, b);
    ComposeIsProduct(h, numeric, b, c);
    ComposeIsProduct(h, numeric, ab, c);
    ComposeIsProduct(h, numeric, a, bc);
    AlikeRefl(x);
    AlikeRefl(z);
    AlikeTimes(Times(y, x), Matrix(h, ab), z, z);
    AlikeTimes(x, x, Times(z, y), Matrix(h, bc));
    TimesAssoc(x, y, z);
    var p := Times(z, Times(y, x));
    AlikeTrans(p, Times(z, Matrix(h, ab)), Matrix(h, l));
    AlikeTrans(p, Times(Matrix(h, bc), x), Matrix(h, r));
    AlikeSym(p, Matrix(h, l));
    AlikeTrans(Matrix(h, l), p, Matrix(h, r));
    NormalIsUnique(h, l, r);
  }

  // Adjoints

  /** The adjoint undoes a gate on either side, without the floating-point path, and its own adjoint is the gate. */
  lemma AdjointUndoes(numeric: U.Numeric, g: U.U3)
    requires IsNormal(g)
    ensures IsNormal(U.Adjoint(g)) && U.Adjoint(U.Adjoint(g)) == g
    ensures U.Compose(numeric, g, U.Adjoint(g)) == U.I && U.Compose(numeric, U.Adjoint(g), g) == U.I
  {
    hide U.Adjoint, U.Compose;
    if g.theta == 0 {
      AdjointOfRz(numeric, g.phi);
    } else if g.theta == PI {
      AdjointOfFlip(numeric, g.phi);
    } else {
      AdjointSuperposes(numeric, g);
    }
  }

  lemma AdjointOfRz(numeric: U.Numeric, phi: Angle)
    ensures var g, k := U.U3(0, phi, 0), U.U3(0, Neg(phi), 0);
      && U.Adjoint(g) == k && U.Adjoint(k) == g && U.Compose(numeric, g, k) == U.I && U.Compose(numeric, k, g) == U.I
  {
    OppositeAngles(phi);
    HalfTurns();
    hide Wrap, Neg;
  }

  lemma AdjointOfFlip(numeric: U.Numeric, phi: Angle)
    ensures var g := U.U3(PI, phi, 0); U.Adjoint(g) == g && U.Compose(numeric, g, g) == U.I
  {
    OppositeAngles(phi);
    HalfTurns();
    hide Wrap, Neg;
  }

  lemma OppositeAngles(a: Angle)
    ensures Neg(Neg(a)) == a && Wrap(a) == a && Wrap(a + 0) == a && Wrap(0 + a) == a && Wrap(0 - Neg(a)) == a && Wrap(Neg(a) - 0) == Neg(a)
    ensures Wrap(Neg(a)) == Neg(a) && Wrap(0 + Neg(a)) == Neg(a) && Wrap(Neg(a) + 0) == Neg(a)
    ensures Wrap(a + Neg(a)) == 0 && Wrap(Neg(a) + a) == 0 && (a == PI ==> Neg(a) == PI) && (a == 0 <==> Neg(a) == 0)
  {
  }

  lemma HalfTurns()
    ensures Neg(PI) == PI && Neg(0) == 0 && Wrap(PI + PI) == 0 && Wrap(0) == 0 && Wrap(0 + 0) == 0 && Wrap(PI - PI) == 0 && Wrap(0 - 0) == 0
    ensures Wrap(PI + 0) == PI && Wrap(0 + PI) == PI
  {
  }

  lemma AdjointSuperposes(numeric: U.Numeric, g: U.U3)
    requires 0 < g.theta < PI
    ensures IsNormal(U.Adjoint(g)) && U.Adjoint(U.Adjoint(g)) == g
    ensures U.Compose(numeric, g, U.Adjoint(g)) == U.I && U.Compose(numeric, U.Adjoint(g), g) == U.I
  {
    hide Wrap, U.Adjoint, U.Compose;
    var k := U.U3(g.theta, Wrap(PI - g.lambda), Wrap(PI - g.phi));
    AdjointIs(g);
    AdjointIs(k);
    Supplements(g.phi);
    Supplements(g.lambda);
    Cancelled(numeric, g, k);
    Cancelled(numeric, k, g);
  }

  lemma AdjointIs(g: U.U3)
    requires 0 < g.theta < PI
    ensures U.Adjoint(g) == U.U3(g.theta, Wrap(PI - g.lambda), Wrap(PI - g.phi))
  {
    assert Neg(g.theta) == TURN - g.theta && Neg(Neg(g.theta)) == g.theta;
    NegThenTurn(g.lambda);
    NegThenTurn(g.phi);
    hide Wrap, Neg;
  }

  lemma NegThenTurn(a: Angle)
    ensures Wrap(Neg(a) + PI) == Wrap(PI - a)
  {
  }

  lemma Supplements(a: Angle)
    ensures Wrap(PI - Wrap(PI - a)) == a && Wrap(a + Wrap(PI - a)) == PI && Wrap(Wrap(PI - a) + a) == PI
    ensures Wrap(Wrap(PI + Wrap(PI - a)) + a) == 0 && Wrap(Wrap(PI + a) + Wrap(PI - a)) == 0
  {
  }

  /** A half turn is left between the rotations, and they cancel. */
  lemma Cancelled(numeric: U.Numeric, a: U.U3, b: U.U3)
    requires a.theta == b.theta && Wrap(a.phi + b.lambda) == PI && Wrap(Wrap(PI + b.phi) + a.lambda) == 0
    ensures U.Compose(numeric, a, b) == U.I
  {
    assert Wrap(b.theta - a.theta) == 0 && Wrap(0 + PI) == PI && Wrap(a.lambda + 0) == a.lambda;
    hide Wrap;
  }
}
