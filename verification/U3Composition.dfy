/** Composing two Euler-angle gates is multiplying their matrices (`U3::compose` and `U3::from_yzy` in `src/u3.rs`). */
module U3Composition {
  import opened Angles
  import opened Complexes
  import opened Circuits
  import opened CircuitRules
  import opened U3Matrices
  import U = U3Gates

  /** rz by half a turn can move past ry, which then turns the other way. */
  lemma HalfTurnSwaps(h: Circle, t: int)
    requires IsCircle(h)
    ensures Times(RzMat(h, HALF_TURN), RyMat(h, t)) == Times(RyMat(h, -t), RzMat(h, HALF_TURN))
  {
    hide IsCircle, Times, Mul, Minus, CosHalf, SinHalf, Phase;
    PhaseValues(h);
    HalfAngles(h, t);
    TimesLeft(h, RyMat(h, t), HALF_TURN);
    TimesRight(h, RyMat(h, -t), HALF_TURN);
    var c, s := CosHalf(h, t), SinHalf(h, t);
    Units(c);
    Units(s);
    MulCommutes(s, Minus(ONE));
    MulCommutes(c, Minus(ONE));
  }

  /** ry by half a turn can move past rz, which then turns the other way. */
  lemma PiSwaps(h: Circle, z: int)
    requires IsCircle(h)
    ensures Alike(Times(RzMat(h, z), RyMat(h, HALF_TURN)), Times(RyMat(h, HALF_TURN), RzMat(h, -z)))
  {
    hide *;
    RyHalfTurn(h);
    TimesLeft(h, RyMat(h, HALF_TURN), z);
    TimesRight(h, RyMat(h, HALF_TURN), -z);
    var p, u := Phase(h, z), Phase(h, -z);
    PhaseAdds(h, z, 0);
    PhaseAdds(h, -z, 0);
    assert -(-z) == z;
    PiScales(p, u);
    AlikeBy(Times(RzMat(h, z), RyMat(h, HALF_TURN)), Times(RyMat(h, HALF_TURN), RzMat(h, -z)), u);
  }

  lemma RyHalfTurn(h: Circle)
    requires IsCircle(h)
    ensures RyMat(h, HALF_TURN) == Mat(ZERO, Minus(ONE), ONE, ZERO)
  {
    hide IsCircle;
    HalfValues(h);
    hide CosHalf, SinHalf, Minus;
  }

  lemma PiScales(p: Complex, u: Complex)
    requires Mul(u, p) == ONE
    ensures Mat(ZERO, Mul(Minus(ONE), u), ONE, Mul(ZERO, u)) == ScaleMat(u, Mat(ZERO, Minus(ONE), Mul(p, ONE), Mul(p, ZERO)))
  {
    hide Mul, Minus;
    Units(u);
    Units(p);
    MulCommutes(u, Minus(ONE));
  }

  lemma RyTurn(h: Circle, t: int)
    requires IsCircle(h)
    ensures Alike(RyMat(h, t), RyMat(h, t - TURN))
  {
    hide IsCircle;
    HalfAnglesTurn(h, t);
    var c, s := CosHalf(h, t), SinHalf(h, t);
    Units(c);
    Units(s);
    Units(Minus(s));
    MinusIsUnit();
    hide CosHalf, SinHalf, Mul, Minus, IsUnit;
    AlikeBy(RyMat(h, t), RyMat(h, t - TURN), Minus(ONE));
  }

  /** Whole turns do not matter. */
  lemma RyWraps(h: Circle, t: int)
    requires IsCircle(h) && -TURN <= t < 2 * TURN
    ensures Alike(RyMat(h, t), RyMat(h, Wrap(t)))
  {
    hide IsCircle, Alike, RyMat;
    if t < 0 {
      RyTurn(h, t + TURN);
      AlikeSym(RyMat(h, t + TURN), RyMat(h, t));
    } else if t >= TURN {
      RyTurn(h, t);
    } else {
      AlikeRefl(RyMat(h, t));
    }
  }

  lemma EulerWraps(h: Circle, theta: int, phi: int, lam: int)
    requires IsCircle(h) && -TURN <= theta < 2 * TURN
    ensures Alike(Euler(h, theta, phi, lam), Euler(h, Wrap(theta), Wrap(phi), Wrap(lam)))
  {
    hide *;
    EulerIs(h, theta, phi, lam);
    EulerIs(h, Wrap(theta), Wrap(phi), Wrap(lam));
    RyWraps(h, theta);
    RzWraps(h, phi);
    RzWraps(h, lam);
    AlikeRefl(RzMat(h, phi));
    AlikeRefl(RzMat(h, lam));
    AlikeTimes(RzMat(h, lam), RzMat(h, lam), RyMat(h, theta), RyMat(h, Wrap(theta)));
    AlikeTimes(Times(RyMat(h, theta), RzMat(h, lam)), Times(RyMat(h, Wrap(theta)), RzMat(h, lam)),
               RzMat(h, phi), RzMat(h, phi));
  }

  lemma RzWraps(h: Circle, a: int)
    requires IsCircle(h)
    ensures RzMat(h, Wrap(a)) == RzMat(h, a)
  {
    hide IsCircle, Phase, Wrap;
    PhaseWraps(h, a);
  }

  /** `U3::new` normalises the angles without changing the gate. */
  lemma NewAlike(h: Circle, theta: Angle, phi: Angle, lam: Angle)
    requires IsCircle(h)
    ensures Alike(Euler(h, theta, phi, lam), Matrix(h, U.New(theta, phi, lam)))
  {
    hide IsCircle, Alike, Euler;
    if theta == 0 {
      NewAtZero(h, phi, lam);
    } else if theta == PI {
      NewAtPi(h, phi, lam);
    } else if theta > PI {
      NewBeyondPi(h, theta, phi, lam);
    } else {
      AlikeRefl(Euler(h, theta, phi, lam));
    }
  }

  lemma EulerAtZero(h: Circle, phi: int, lam: int)
    requires IsCircle(h)
    ensures Euler(h, 0, phi, lam) == RzMat(h, phi + lam)
  {
    hide IsCircle;
    HalfValues(h);
    hide CosHalf, SinHalf, Phase;
    Units(Phase(h, phi));
    Units(Phase(h, lam));
    Units(Phase(h, phi + lam));
    MinusZero();
    hide Mul, Minus;
  }

  lemma MinusZero()
    ensures Minus(ZERO) == ZERO
  {
  }

  lemma NewAtZero(h: Circle, phi: Angle, lam: Angle)
    requires IsCircle(h)
    ensures Alike(Euler(h, 0, phi, lam), Matrix(h, U.New(0, phi, lam)))
  {
    hide IsCircle, Alike, Euler, RzMat, Wrap;
    EulerAtZero(h, phi, lam);
    EulerAtZero(h, Wrap(phi + lam), 0);
    RzWraps(h, phi + lam);
    AlikeRefl(RzMat(h, phi + lam));
  }

  lemma EulerAtPi(h: Circle, phi: int, lam: int)
    requires IsCircle(h)
    ensures Euler(h, HALF_TURN, phi, lam) == Mat(ZERO, Minus(Phase(h, lam)), Phase(h, phi), ZERO)
  {
    hide IsCircle;
    HalfValues(h);
    hide CosHalf, SinHalf, Phase;
    Units(Phase(h, phi));
    Units(Phase(h, lam));
    Units(Phase(h, phi + lam));
    hide Mul, Minus;
  }

  lemma NewAtPi(h: Circle, phi: Angle, lam: Angle)
    requires IsCircle(h)
    ensures Alike(Euler(h, PI, phi, lam), Matrix(h, U.New(PI, phi, lam)))
  {
    hide IsCircle, Alike, Euler, Wrap, Phase, Mul, Minus, IsUnit;
    var p, l: int := phi, lam;
    EulerAtPi(h, phi, lam);
    EulerAtPi(h, Wrap(phi - lam), 0);
    PhaseWraps(h, p - l);
    PhaseAdds(h, -l, p);
    PhaseAdds(h, -l, l);
    var u := Phase(h, -l);
    MinusMul(u, Phase(h, l));
    Units(u);
    assert -l + p == p - l && -l + l == 0;
    AlikeBy(Euler(h, PI, phi, lam), Matrix(h, U.New(PI, phi, lam)), u);
  }

  lemma NewBeyondPi(h: Circle, theta: Angle, phi: Angle, lam: Angle)
    requires IsCircle(h) && theta > PI
    ensures Alike(Euler(h, theta, phi, lam), Matrix(h, U.New(theta, phi, lam)))
  {
    hide IsCircle, Alike, Euler, RyMat, RzMat;
    var t: int := theta;
    assert Neg(theta) == Wrap(-t);
    EulerWraps(h, -t, phi + PI, lam + PI);
    FlippedTheta(h, t, phi, lam);
  }

  /** Turning the other way between two half turns. */
  lemma FlippedTheta(h: Circle, theta: int, phi: int, lam: int)
    requires IsCircle(h)
    ensures Euler(h, theta, phi, lam) == Euler(h, -theta, phi + HALF_TURN, lam + HALF_TURN)
  {
    hide IsCircle, Phase, CosHalf, SinHalf, Mul, Minus;
    HalfAngles(h, theta);
    PhaseValues(h);
    PhaseAdds(h, phi, HALF_TURN);
    PhaseAdds(h, lam, HALF_TURN);
    PhaseAdds(h, phi + lam, TURN);
    assert phi + HALF_TURN + (lam + HALF_TURN) == phi + lam + TURN;
    var s := SinHalf(h, theta);
    FlippedSigns(Phase(h, phi), s);
    FlippedSigns(Phase(h, lam), s);
    Units(Phase(h, phi + lam));
  }

  lemma FlippedSigns(p: Complex, s: Complex)
    ensures Mul(Mul(p, Minus(ONE)), Minus(s)) == Mul(p, s)
  {
    hide Mul, Minus;
    MulAssoc(p, Minus(ONE), Minus(s));
    Units(Minus(s));
    Units(s);
  }

  // Compositions

  /** ry(t1), then rz(z), then ry(t2). */
  function Yzy(h: Circle, t1: int, z: int, t2: int): Mat {
    Times(RyMat(h, t2), Times(RzMat(h, z), RyMat(h, t1)))
  }

  lemma YzyNoRz(h: Circle, t1: int, t2: int)
    requires IsCircle(h)
    ensures Yzy(h, t1, 0, t2) == Euler(h, t1 + t2, 0, 0)
  {
    hide IsCircle, Times, RyMat, Euler;
    RzNothing(h, RyMat(h, t1));
    RyAdds(h, t1, t2);
    EulerIs(h, t1 + t2, 0, 0);
    RzNothing(h, RyMat(h, t1 + t2));
  }

  lemma RzNothing(h: Circle, m: Mat)
    requires IsCircle(h)
    ensures Times(RzMat(h, 0), m) == m && Times(m, RzMat(h, 0)) == m
  {
    hide IsCircle, Times, Phase;
    CircleZero(h);
    TimesLeft(h, m, 0);
    TimesRight(h, m, 0);
    Units(m.b);
    Units(m.c);
    Units(m.d);
    hide Mul;
  }

  lemma RyThenRz(h: Circle, t: int, z: int)
    requires IsCircle(h)
    ensures Euler(h, t, z, 0) == Times(RzMat(h, z), RyMat(h, t)) && Euler(h, t, 0, z) == Times(RyMat(h, t), RzMat(h, z))
  {
    hide *;
    EulerIs(h, t, z, 0);
    EulerIs(h, t, 0, z);
    RzNothing(h, RyMat(h, t));
    RzNothing(h, Times(RyMat(h, t), RzMat(h, z)));
  }

  lemma YzyHalfTurn(h: Circle, t1: int, t2: int)
    requires IsCircle(h)
    ensures Yzy(h, t1, HALF_TURN, t2) == Euler(h, t2 - t1, 0, HALF_TURN)
  {
    hide IsCircle, Times, RyMat, RzMat, Euler;
    HalfTurnSwaps(h, t1);
    TimesAssoc(RzMat(h, HALF_TURN), RyMat(h, -t1), RyMat(h, t2));
    RyAdds(h, -t1, t2);
    RyThenRz(h, t2 - t1, HALF_TURN);
    assert -t1 + t2 == t2 - t1;
  }

  lemma YzyNoFirst(h: Circle, z: int, t: int)
    requires IsCircle(h)
    ensures Yzy(h, 0, z, t) == Euler(h, t, 0, z) && Yzy(h, t, z, 0) == Euler(h, t, z, 0)
  {
    hide IsCircle, Times, RyMat, RzMat, Euler;
    RyNothing(h);
    RzNothing(h, RzMat(h, z));
    RzNothing(h, Times(RzMat(h, z), RyMat(h, t)));
    RyThenRz(h, t, z);
  }

  lemma RyNothing(h: Circle)
    requires IsCircle(h)
    ensures RyMat(h, 0) == RzMat(h, 0)
  {
    hide IsCircle;
    HalfValues(h);
    CircleZero(h);
    MinusZero();
    hide CosHalf, SinHalf, Phase, Minus;
  }

  lemma YzyPiFirst(h: Circle, z: int, t: int)
    requires IsCircle(h)
    ensures Alike(Yzy(h, HALF_TURN, z, t), Euler(h, t + HALF_TURN, 0, -z))
  {
    hide IsCircle, Times, RyMat, RzMat, Euler, Alike;
    var p, r := RyMat(h, HALF_TURN), RzMat(h, -z);
    PiSwaps(h, z);
    AlikeRefl(RyMat(h, t));
    AlikeTimes(Times(RzMat(h, z), p), Times(p, r), RyMat(h, t), RyMat(h, t));
    TimesAssoc(r, p, RyMat(h, t));
    RyAdds(h, HALF_TURN, t);
    RyThenRz(h, t + HALF_TURN, -z);
    assert HALF_TURN + t == t + HALF_TURN;
  }

  lemma YzyPiLast(h: Circle, z: int, t: int)
    requires IsCircle(h)
    ensures Alike(Yzy(h, t, z, HALF_TURN), Euler(h, t + HALF_TURN, -z, 0))
  {
    hide IsCircle, Times, RyMat, RzMat, Euler, Alike;
    var p, r, y := RyMat(h, HALF_TURN), RzMat(h, z), RyMat(h, t);
    PiSwaps(h, -z);
    assert -(-z) == z;
    AlikeSym(Times(RzMat(h, -z), p), Times(p, r));
    AlikeRefl(y);
    AlikeTimes(y, y, Times(p, r), Times(RzMat(h, -z), p));
    TimesAssoc(y, r, p);
    TimesAssoc(y, p, RzMat(h, -z));
    RyAdds(h, t, HALF_TURN);
    RyThenRz(h, t + HALF_TURN, -z);
  }

  /** The square of the cosine of an eighth turn. */
  lemma QuarterSquare(h: Circle)
    requires IsCircle(h)
    ensures var c := CosHalf(h, QUARTER); RyMat(h, QUARTER) == Mat(c, Minus(c), c, c) && Mul(c, c) == HALF
  {
    hide IsCircle, CosHalf, SinHalf;
    EighthTurns(h);
    RyAdds(h, QUARTER, QUARTER);
    RyHalfTurn(h);
    var c := CosHalf(h, QUARTER);
    assert Lin(c, c, c, c) == ONE;
    DoubledIsOne(Mul(c, c));
  }

  lemma DoubledIsOne(x: Complex)
    requires Add(x, x) == ONE
    ensures x == HALF
  {
  }

  /** Quarter turns around rz, as a matrix. */
  lemma QuartersLeft(c: Complex, e: Complex)
    requires Mul(c, c) == HALF
    ensures var r := Mat(c, Minus(c), c, c); var m := Mul(HALF, Add(ONE, Minus(e))); var p := Mul(HALF, Add(ONE, e));
      Times(r, Mat(c, Minus(c), Mul(e, c), Mul(e, c))) == Mat(m, Minus(p), p, Minus(m))
  {
    hide Mul, Add, Minus;
    Swapped(c, e, c);
    MulCommutes(e, HALF);
    MinusMul(c, c);
    MinusMul(c, Mul(e, c));
    Distributes(HALF, ONE, Minus(e));
    Distributes(HALF, ONE, e);
    Units(HALF);
    MinusMul(HALF, e);
    MinusMul(Mul(HALF, ONE), Mul(HALF, e));
    MinusMul(Mul(HALF, ONE), Minus(Mul(HALF, e)));
    Units(Mul(HALF, e));
  }

  /** The same as one rotation. */
  lemma QuartersRight(h: Circle, z: int)
    requires IsCircle(h)
    ensures var w, u := h(z), h(-z);
      var c, s := Mul(HALF, Mul(I, Add(u, Minus(w)))), Mul(HALF, Mul(I, Add(u, w)));
      Euler(h, HALF_TURN - z, QUARTER, QUARTER) == Mat(c, Minus(s), s, Minus(c))
  {
    hide IsCircle, Mul, Add, Minus, Phase;
    var w, u := h(z), h(-z);
    PhaseValues(h);
    CircleValues(h);
    ProductsOfI();
    CircleBack(h, HALF_TURN, I, Minus(I));
    CircleAdd(h, HALF_TURN, -z);
    CircleAdd(h, -HALF_TURN, z);
    assert -(HALF_TURN - z) == -HALF_TURN + z;
    HalvesTurned(w, u);
    Units(CosHalf(h, HALF_TURN - z));
    assert QUARTER + QUARTER == HALF_TURN;
  }

  lemma HalvesTurned(w: Complex, u: Complex)
    ensures Cos(Mul(I, u), Mul(Minus(I), w)) == Mul(HALF, Mul(I, Add(u, Minus(w))))
    ensures Mul(I, Sin(Mul(I, u), Mul(Minus(I), w))) == Mul(HALF, Mul(I, Add(u, w)))
  {
    hide Mul;
    TimesI(u);
    TimesI(w);
    TimesI(Add(u, w));
    TimesI(Add(u, Minus(w)));
    HalvesOfSum(Mul(I, u), Mul(Minus(I), w));
    TimesI(Sin(Mul(I, u), Mul(Minus(I), w)));
    HalfOf(Mul(I, Add(u, w)));
    HalfOf(Mul(I, Add(u, Minus(w))));
  }

  lemma HalfOf(x: Complex)
    ensures Mul(HALF, x) == Complex(x.re * 0.5, x.im * 0.5)
  {
  }

  lemma QuartersScale(w: Complex, u: Complex)
    requires Mul(w, u) == ONE
    ensures var c, s := Mul(HALF, Mul(I, Add(u, Minus(w)))), Mul(HALF, Mul(I, Add(u, w)));
      var m, p := Mul(HALF, Add(ONE, Minus(Mul(w, w)))), Mul(HALF, Add(ONE, Mul(w, w)));
      Mat(m, Minus(p), p, Minus(m)) == ScaleMat(Mul(Minus(I), w), Mat(c, Minus(s), s, Minus(c)))
  {
    hide Mul, Add, Minus;
    var g := Mul(Minus(I), w);
    Unturned(w, Add(u, Minus(w)));
    Unturned(w, Add(u, w));
    Distributes(w, u, Minus(w));
    Distributes(w, u, w);
    MinusMul(w, w);
    MinusMul(g, Mul(HALF, Mul(I, Add(u, w))));
    MinusMul(g, Mul(HALF, Mul(I, Add(u, Minus(w)))));
  }

  lemma Unturned(w: Complex, v: Complex)
    ensures Mul(Mul(Minus(I), w), Mul(HALF, Mul(I, v))) == Mul(HALF, Mul(w, v))
  {
    hide *;
    var g := Mul(Minus(I), w);
    Swapped(g, HALF, Mul(I, v));
    MulAssoc(g, I, v);
    MulCommutes(Minus(I), w);
    MulAssoc(w, Minus(I), I);
    MulCommutes(Minus(I), I);
    ProductsOfI();
    Units(w);
  }

  /** Two quarter turns about Y around a turn about Z. */
  lemma YzyQuarters(h: Circle, z: int)
    requires IsCircle(h)
    ensures Alike(Yzy(h, QUARTER, z, QUARTER), Euler(h, HALF_TURN - z, QUARTER, QUARTER))
  {
    hide IsCircle, Times, RyMat, Euler, Mul, Add, Minus, Alike, CosHalf, ScaleMat, IsUnit;
    var w, u, c := h(z), h(-z), CosHalf(h, QUARTER);
    QuarterSquare(h);
    CircleAdd(h, z, z);
    CircleAdd(h, z, -z);
    CircleZero(h);
    assert Phase(h, z) == Mul(w, w) by {
      assert z + z == 2 * z;
    }
    TimesLeft(h, RyMat(h, QUARTER), z);
    MinusMul(Mul(w, w), c);
    QuartersLeft(c, Mul(w, w));
    QuartersRight(h, z);
    QuartersScale(w, u);
    MinusIIsUnit();
    UnitMul(Minus(I), w);
    AlikeBy(Euler(h, HALF_TURN - z, QUARTER, QUARTER), Yzy(h, QUARTER, z, QUARTER), Mul(Minus(I), w));
    AlikeSym(Euler(h, HALF_TURN - z, QUARTER, QUARTER), Yzy(h, QUARTER, z, QUARTER));
  }

  lemma MinusIIsUnit()
    ensures IsUnit(Minus(I))
  {
    MinusOf(I);
  }

  /** What the floating-point path has to make. */
  ghost predicate IsExact(h: Circle, numeric: U.Numeric, t1: Angle, z: Angle, t2: Angle) {
    U.IsNumeric(t1, z, t2) ==> Alike(Yzy(h, t1, z, t2), Matrix(h, numeric(t1, z, t2)))
  }

  /** Every other path is exact. */
  lemma FromYzyAlike(h: Circle, numeric: U.Numeric, t1: Angle, z: Angle, t2: Angle)
    requires IsCircle(h) && IsExact(h, numeric, t1, z, t2)
    ensures Alike(Yzy(h, t1, z, t2), Matrix(h, U.FromYzy(numeric, t1, z, t2)))
  {
    hide IsCircle, Alike, Yzy, Euler, U.New;
    if z == 0 {
      YzyNoRz(h, t1, t2);
      Renewed(h, Yzy(h, t1, z, t2), t1 + t2, 0, 0);
    } else if z == PI {
      YzyHalfTurn(h, t1, t2);
      Renewed(h, Yzy(h, t1, z, t2), t2 - t1, 0, PI);
    } else if t1 == 0 {
      YzyNoFirst(h, z, t2);
      Renewed(h, Yzy(h, t1, z, t2), t2, 0, z);
    } else if t1 == PI {
      YzyPiFirst(h, z, t2);
      AlsoRenewed(h, Yzy(h, t1, z, t2), t2 + PI, 0, -(z as int));
    } else if t2 == 0 {
      YzyNoFirst(h, z, t1);
      Renewed(h, Yzy(h, t1, z, t2), t1, z, 0);
    } else if t2 == PI {
      YzyPiLast(h, z, t1);
      AlsoRenewed(h, Yzy(h, t1, z, t2), t1 + PI, -(z as int), 0);
    } else if t1 == PI_1_2 && t2 == PI_1_2 {
      YzyQuarters(h, z);
      AlsoRenewed(h, Yzy(h, t1, z, t2), PI - z, PI_1_2, PI_1_2);
    }
  }

  lemma Renewed(h: Circle, m: Mat, theta: int, phi: int, lam: int)
    requires IsCircle(h) && -TURN <= theta < 2 * TURN && m == Euler(h, theta, phi, lam)
    ensures Alike(m, Matrix(h, U.New(Wrap(theta), Wrap(phi), Wrap(lam))))
  {
    hide *;
    EulerWraps(h, theta, phi, lam);
    NewAlike(h, Wrap(theta), Wrap(phi), Wrap(lam));
    AlikeTrans(m, Euler(h, Wrap(theta), Wrap(phi), Wrap(lam)), Matrix(h, U.New(Wrap(theta), Wrap(phi), Wrap(lam))));
  }

  lemma AlsoRenewed(h: Circle, m: Mat, theta: int, phi: int, lam: int)
    requires IsCircle(h) && -TURN <= theta < 2 * TURN && Alike(m, Euler(h, theta, phi, lam))
    ensures Alike(m, Matrix(h, U.New(Wrap(theta), Wrap(phi), Wrap(lam))))
  {
    hide *;
    Renewed(h, Euler(h, theta, phi, lam), theta, phi, lam);
    AlikeTrans(m, Euler(h, theta, phi, lam), Matrix(h, U.New(Wrap(theta), Wrap(phi), Wrap(lam))));
  }

  /** Composing two gates is multiplying their matrices, up to global phase. */
  lemma ComposeIsProduct(h: Circle, numeric: U.Numeric, a: U.U3, b: U.U3)
    requires IsCircle(h) && IsExact(h, numeric, a.theta, Wrap(a.phi + b.lambda), b.theta)
    ensures Alike(Times(Matrix(h, b), Matrix(h, a)), Matrix(h, U.Compose(numeric, a, b)))
  {
    var z := Wrap(a.phi + b.lambda);
    var r := U.FromYzy(numeric, a.theta, z, b.theta);
    var c := U.Compose(numeric, a, b);
    hide *;
    ComposeIs(numeric, a, b);
    MatrixIs(h, r);
    FromYzyAlike(h, numeric, a.theta, z, b.theta);
    Sandwich(h, a, b);
    var m := Yzy(h, a.theta, z, b.theta);
    AlikeAround(h, m, Matrix(h, r), a.lambda, b.phi);
    AroundEuler(h, r.theta, r.phi, r.lambda, a.lambda, b.phi);
    Renewed(h, Euler(h, r.theta, r.phi + b.phi, a.lambda + r.lambda), r.theta, r.phi + b.phi, a.lambda + r.lambda);
    WrapAngle(r.theta);
    AlikeTrans(Times(Matrix(h, b), Matrix(h, a)), Euler(h, r.theta, r.phi + b.phi, a.lambda + r.lambda), Matrix(h, c));
  }

  lemma ComposeIs(numeric: U.Numeric, a: U.U3, b: U.U3)
    ensures var r := U.FromYzy(numeric, a.theta, Wrap(a.phi + b.lambda), b.theta);
      U.Compose(numeric, a, b) == U.New(r.theta, Wrap(r.phi + b.phi), Wrap(a.lambda + r.lambda))
  {
    hide U.FromYzy, U.New, Wrap;
  }

  lemma MatrixIs(h: Circle, g: U.U3)
    ensures Matrix(h, g) == Euler(h, g.theta, g.phi, g.lambda)
  {
    hide Euler;
  }

  lemma WrapAngle(a: Angle)
    ensures Wrap(a) == a
  {
  }

  /** A matrix between two turns about Z. */
  function Around(h: Circle, m: Mat, first: int, last: int): Mat {
    Times(RzMat(h, last), Times(m, RzMat(h, first)))
  }

  lemma AlikeAround(h: Circle, m: Mat, n: Mat, first: int, last: int)
    requires Alike(m, n)
    ensures Alike(Around(h, m, first, last), Around(h, n, first, last))
  {
    hide Alike, Times, RzMat;
    AlikeRefl(RzMat(h, first));
    AlikeRefl(RzMat(h, last));
    AlikeTimes(RzMat(h, first), RzMat(h, first), m, n);
    AlikeTimes(Times(m, RzMat(h, first)), Times(n, RzMat(h, first)), RzMat(h, last), RzMat(h, last));
  }

  lemma AroundEuler(h: Circle, theta: int, phi: int, lam: int, first: int, last: int)
    requires IsCircle(h)
    ensures Around(h, Euler(h, theta, phi, lam), first, last) == Euler(h, theta, phi + last, first + lam)
  {
    hide IsCircle, Times, RzMat, RyMat, Euler;
    var f, l, y, p, s := RzMat(h, first), RzMat(h, last), RyMat(h, theta), RzMat(h, phi), RzMat(h, lam);
    EulerIs(h, theta, phi, lam);
    EulerIs(h, theta, phi + last, first + lam);
    RzAdds(h, first, lam);
    RzAdds(h, phi, last);
    TimesAssoc(f, Times(y, s), p);
    TimesAssoc(f, s, y);
    TimesAssoc(Times(y, Times(s, f)), p, l);
  }

  lemma Sandwich(h: Circle, a: U.U3, b: U.U3)
    requires IsCircle(h)
    ensures Times(Matrix(h, b), Matrix(h, a)) == Around(h, Yzy(h, a.theta, Wrap(a.phi + b.lambda), b.theta), a.lambda, b.phi)
  {
    hide IsCircle, Times, RzMat, RyMat, Euler, Wrap;
    var ya, yb := RyMat(h, a.theta), RyMat(h, b.theta);
    var la, pa, lb, pb := RzMat(h, a.lambda), RzMat(h, a.phi), RzMat(h, b.lambda), RzMat(h, b.phi);
    var z := RzMat(h, a.phi + b.lambda);
    EulerIs(h, a.theta, a.phi, a.lambda);
    EulerIs(h, b.theta, b.phi, b.lambda);
    RzAdds(h, a.phi, b.lambda);
    RzWraps(h, a.phi + b.lambda);
    Regroup(la, ya, pa, lb, yb, pb);
  }

  lemma Regroup(la: Mat, ya: Mat, pa: Mat, lb: Mat, yb: Mat, pb: Mat)
    ensures Times(Times(pb, Times(yb, lb)), Times(pa, Times(ya, la))) == Times(pb, Times(Times(yb, Times(Times(lb, pa), ya)), la))
  {
    hide Times;
    var x := Times(pa, Times(ya, la));
    TimesAssoc(x, Times(yb, lb), pb);
    TimesAssoc(x, lb, yb);
    TimesAssoc(Times(ya, la), pa, lb);
    TimesAssoc(la, ya, Times(lb, pa));
    TimesAssoc(la, Times(Times(lb, pa), ya), yb);
  }

  // Where the floating-point path is never taken

  /** The turns that two gates make about Y, with the turn about Z between them, are multiplied exactly. */
  predicate Elementary(a: U.U3, b: U.U3) {
    var z := Wrap(a.phi + b.lambda);
    || z == 0 || z == PI || a.theta == 0 || a.theta == PI || b.theta == 0 || b.theta == PI
    || (a.theta == PI_1_2 && b.theta == PI_1_2)
  }

  /** Without a turn about Z between them, or with a half turn, or with a gate that only relabels or turns, or between
      two quarter turns, gates are composed exactly whatever the floating-point path does. */
  lemma ElementaryIsExact(h: Circle, numeric: U.Numeric, a: U.U3, b: U.U3)
    requires IsCircle(h) && Elementary(a, b)
    ensures Alike(Times(Matrix(h, b), Matrix(h, a)), Matrix(h, U.Compose(numeric, a, b)))
  {
    hide IsCircle, Alike, Times, Matrix, U.Compose, Wrap, Yzy;
    ComposeIsProduct(h, numeric, a, b);
  }

  /** Turns about Y add up. */
  lemma RyAfterRy(h: Circle, numeric: U.Numeric, x: Angle, y: Angle)
    requires IsCircle(h)
    ensures Alike(RyMat(h, x + y), Matrix(h, U.Compose(numeric, U.Ry(x), U.Ry(y))))
  {
    hide *;
    RyIs(h, x);
    RyIs(h, y);
    RyMeetsRy(x, y);
    ElementaryIsExact(h, numeric, U.Ry(x), U.Ry(y));
    AlikeTimes(RyMat(h, x), Matrix(h, U.Ry(x)), RyMat(h, y), Matrix(h, U.Ry(y)));
    RyAdds(h, x, y);
    AlikeTrans(RyMat(h, x + y), Times(Matrix(h, U.Ry(y)), Matrix(h, U.Ry(x))), Matrix(h, U.Compose(numeric, U.Ry(x), U.Ry(y))));
  }

  /** A half turn about Z reverses the turn about Y before it. */
  lemma RyAroundHalfTurn(h: Circle, numeric: U.Numeric, x: Angle, y: Angle)
    requires IsCircle(h)
    ensures Alike(Times(RyMat(h, y), Times(RzMat(h, PI), RyMat(h, x))),
                  Matrix(h, U.Compose(numeric, U.Compose(numeric, U.Ry(x), U.Rz(PI)), U.Ry(y))))
  {
    hide *;
    var a := U.Compose(numeric, U.Ry(x), U.Rz(PI));
    RyIs(h, x);
    RyIs(h, y);
    RzIs(h, PI);
    RyMeetsHalfTurn(numeric, x, y);
    ElementaryIsExact(h, numeric, U.Ry(x), U.Rz(PI));
    ElementaryIsExact(h, numeric, a, U.Ry(y));
    AlikeRefl(RzMat(h, PI));
    AlikeTimes(RyMat(h, x), Matrix(h, U.Ry(x)), RzMat(h, PI), Matrix(h, U.Rz(PI)));
    AlikeTrans(Times(RzMat(h, PI), RyMat(h, x)), Times(Matrix(h, U.Rz(PI)), Matrix(h, U.Ry(x))), Matrix(h, a));
    AlikeTimes(Times(RzMat(h, PI), RyMat(h, x)), Matrix(h, a), RyMat(h, y), Matrix(h, U.Ry(y)));
    AlikeTrans(Times(RyMat(h, y), Times(RzMat(h, PI), RyMat(h, x))), Times(Matrix(h, U.Ry(y)), Matrix(h, a)),
               Matrix(h, U.Compose(numeric, a, U.Ry(y))));
  }

  lemma RyMeetsRy(x: Angle, y: Angle)
    ensures Elementary(U.Ry(x), U.Ry(y))
  {
    hide Neg;
  }

  lemma RyMeetsHalfTurn(numeric: U.Numeric, x: Angle, y: Angle)
    ensures Elementary(U.Ry(x), U.Rz(PI)) && Elementary(U.Compose(numeric, U.Ry(x), U.Rz(PI)), U.Ry(y))
  {
    hide Neg;
  }

  lemma RyIs(h: Circle, a: Angle)
    requires IsCircle(h)
    ensures Alike(RyMat(h, a), Matrix(h, U.Ry(a)))
  {
    EulerRy(h, a);
    hide *;
    NewAlike(h, a, 0, 0);
  }

  lemma RzIs(h: Circle, a: Angle)
    requires IsCircle(h)
    ensures Matrix(h, U.Rz(a)) == RzMat(h, a)
  {
    hide IsCircle, Euler, RzMat;
    EulerAtZero(h, a, 0);
    assert a + 0 == a;
  }

  lemma EulerRy(h: Circle, a: Angle)
    requires IsCircle(h)
    ensures Euler(h, a, 0, 0) == RyMat(h, a) && U.Ry(a) == U.New(a, 0, 0)
  {
    hide IsCircle, CosHalf, SinHalf, Mul, Minus, U.New;
    PhaseValues(h);
    hide Phase;
    Units(CosHalf(h, a));
    Units(SinHalf(h, a));
  }

  /** The form of a gate that `U3::new` establishes. */
  predicate IsNormal(g: U.U3) {
    g.theta <= PI && (g.theta == 0 || g.theta == PI ==> g.lambda == 0)
  }

  /** All gates are made and composed in that form. */
  lemma ComposesNormal(numeric: U.Numeric, a: U.U3, b: U.U3, theta: Angle, phi: Angle, lam: Angle)
    ensures IsNormal(U.New(theta, phi, lam)) && IsNormal(U.Compose(numeric, a, b))
  {
    NewIsNormal(theta, phi, lam);
    ComposeIs(numeric, a, b);
    var r := U.FromYzy(numeric, a.theta, Wrap(a.phi + b.lambda), b.theta);
    NewIsNormal(r.theta, Wrap(r.phi + b.phi), Wrap(a.lambda + r.lambda));
    hide U.New, U.Compose, U.FromYzy;
  }

  lemma NewIsNormal(theta: Angle, phi: Angle, lam: Angle)
    ensures IsNormal(U.New(theta, phi, lam))
  {
  }

  /** theta a multiple of a quarter turn up to a half, and the other angles multiples of a quarter turn. */
  predicate IsClifford(g: U.U3) {
    (g.theta == 0 || g.theta == PI_1_2 || g.theta == PI) && g.phi % PI_1_2 == 0 && g.lambda % PI_1_2 == 0
  }

  lemma WrapQuarters(k: int)
    ensures Wrap(QUARTER * k) % QUARTER == 0
  {
    var t := QUARTER * k / TURN;
    assert Wrap(QUARTER * k) == QUARTER * (k - 4 * t);
  }

  lemma QuarterSums(a: int, b: int)
    requires a % QUARTER == 0 && b % QUARTER == 0
    ensures Wrap(a + b) % QUARTER == 0 && Wrap(a - b) % QUARTER == 0
  {
    WrapQuarters(a / QUARTER + b / QUARTER);
    WrapQuarters(a / QUARTER - b / QUARTER);
  }

  lemma NewClifford(theta: Angle, phi: Angle, lam: Angle)
    requires theta % PI_1_2 == 0 && phi % PI_1_2 == 0 && lam % PI_1_2 == 0
    ensures IsClifford(U.New(theta, phi, lam))
  {
    hide Wrap;
    var p, l: int := phi, lam;
    QuarterSums(p, l);
    QuarterSums(p, HALF_TURN);
    QuarterSums(l, HALF_TURN);
    if theta > PI {
      BeyondHalf(theta);
    }
  }

  lemma BeyondHalf(theta: Angle)
    requires theta % PI_1_2 == 0 && theta > PI
    ensures Neg(theta) == PI_1_2
  {
  }

  /** Composing two Clifford gates never takes the floating-point path, and makes a Clifford gate. */
  lemma CliffordsCompose(numeric: U.Numeric, a: U.U3, b: U.U3)
    requires IsClifford(a) && IsClifford(b)
    ensures !U.IsNumeric(a.theta, Wrap(a.phi + b.lambda), b.theta) && IsClifford(U.Compose(numeric, a, b))
  {
    hide Wrap, U.New;
    ComposeIs(numeric, a, b);
    hide U.Compose;
    var z := Wrap(a.phi + b.lambda);
    QuarterSums(a.phi, b.lambda);
    YzyClifford(numeric, a.theta, z, b.theta);
    var r := U.FromYzy(numeric, a.theta, z, b.theta);
    hide U.FromYzy;
    QuarterSums(r.phi, b.phi);
    QuarterSums(a.lambda, r.lambda);
    NewClifford(r.theta, Wrap(r.phi + b.phi), Wrap(a.lambda + r.lambda));
  }

  lemma YzyClifford(numeric: U.Numeric, t1: Angle, z: Angle, t2: Angle)
    requires (t1 == 0 || t1 == PI_1_2 || t1 == PI) && z % PI_1_2 == 0 && (t2 == 0 || t2 == PI_1_2 || t2 == PI)
    ensures IsClifford(U.FromYzy(numeric, t1, z, t2))
  {
    hide IsClifford, U.New, Wrap;
    var x, y, w: int := t1, t2, z;
    QuarterSums(x, y);
    QuarterSums(y, x);
    QuarterSums(0, w);
    QuarterSums(x, HALF_TURN);
    QuarterSums(y, HALF_TURN);
    QuarterSums(HALF_TURN, w);
    NewClifford(Wrap(x + y), 0, 0);
    NewClifford(Wrap(y - x), 0, PI);
    NewClifford(t2, 0, z);
    NewClifford(t1, z, 0);
    NegIsWrap(z);
    NewClifford(Wrap(y + PI), 0, Neg(z));
    NewClifford(Wrap(x + PI), Neg(z), 0);
    NewClifford(Wrap(PI - w), PI_1_2, PI_1_2);
  }

  lemma NegIsWrap(z: Angle)
    ensures var w: int := z; Neg(z) == Wrap(0 - w)
  {
  }
}
