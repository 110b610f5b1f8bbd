/** The decompositions of single-qubit gates (`to_cx_rz`, `to_rz_rx` and `to_rz_h_rz` in `src/u3.rs`) of gates that rounding
    does not mistake:
    what they multiply to, and past what the parts can move. */
module U3Decompositions {
  import opened Angles
  import opened Complexes
  import opened Controls
  import opened Circuits
  import opened CircuitRules
  import opened U3Matrices
  import opened U3Composition
  import U = U3Gates

  /** A part of a plain gate that rounds to nothing is nothing; an rz that rounds to a half turn is one. */
  lemma PlainParts(g: U.U3, prec: nat)
    requires U.IsPlain(g, prec)
    ensures U.ToCxRz(g, prec).Some? ==> (Round(U.ToCxRz(g, prec).value.1, prec) == 0 <==> U.ToCxRz(g, prec).value.1 == 0)
    ensures U.ToRzRx(g, prec).Some? ==>
      var (rz, rx) := U.ToRzRx(g, prec).value; (Round(rz, prec) == 0 <==> rz == 0) && (Round(rx, prec) == 0 <==> rx == 0)
    ensures U.ToRzHRz(g, prec).Some? ==>
      var (rz1, rz2) := U.ToRzHRz(g, prec).value;
      (Round(rz1, prec) == 0 <==> rz1 == 0) && (Round(rz2, prec) == 0 <==> rz2 == 0) && (Round(rz2, prec) == PI ==> rz2 == PI)
  {
    PlainAngles(0, prec);
    hide Round, U.ToCxRz, U.ToRzRx, U.ToRzHRz;
  }

  // Optionally x, then rz

  lemma CxRzProduct(h: Circle, g: U.U3, prec: nat)
    requires IsCircle(h) && Round(g.theta, prec) == g.theta && U.ToCxRz(g, prec).Some?
    ensures var (isX, rz) := U.ToCxRz(g, prec).value;
      Alike(Matrix(h, g), if isX then Times(RzMat(h, rz), XMat) else RzMat(h, rz))
  {
    hide IsCircle, Alike, Euler, RzMat, Times, Wrap;
    hide Round;
    if g.theta == 0 {
      EulerAtZero(h, g.phi, g.lambda);
      RzWraps(h, g.phi + g.lambda);
      AlikeRefl(Matrix(h, g));
    } else {
      EulerAtPi(h, g.phi, g.lambda);
      RzWraps(h, PI + g.phi - g.lambda);
      XThenRz(h, g.phi, g.lambda);
    }
  }

  lemma XThenRz(h: Circle, phi: int, lam: int)
    requires IsCircle(h)
    ensures Alike(Mat(ZERO, Minus(Phase(h, lam)), Phase(h, phi), ZERO), Times(RzMat(h, HALF_TURN + phi - lam), XMat))
  {
    hide IsCircle, Alike, Times, Mul, Minus, Phase, IsUnit;
    var u := Phase(h, HALF_TURN - lam);
    TimesLeft(h, XMat, HALF_TURN + phi - lam);
    PhaseValues(h);
    PhaseAdds(h, HALF_TURN - lam, lam);
    PhaseAdds(h, HALF_TURN - lam, phi);
    MinusMul(u, Phase(h, lam));
    Units(u);
    Units(ONE);
    Units(Phase(h, HALF_TURN + phi - lam));
    assert HALF_TURN - lam + phi == HALF_TURN + phi - lam;
    AlikeBy(Mat(ZERO, Minus(Phase(h, lam)), Phase(h, phi), ZERO), Times(RzMat(h, HALF_TURN + phi - lam), XMat), u);
  }

  // rz, then rx

  lemma Quarters()
    ensures PI == HALF_TURN && PI_1_2 == QUARTER && QUARTER + HALF_TURN == PI_3_2 && QUARTER + QUARTER == HALF_TURN
    ensures PI_3_2 + QUARTER == TURN
  {
  }

  lemma RzRxProduct(h: Circle, g: U.U3, prec: nat)
    requires IsCircle(h) && U.IsPlain(g, prec) && U.ToRzRx(g, prec).Some?
    ensures var (rz, rx) := U.ToRzRx(g, prec).value; Alike(Matrix(h, g), Times(Matrix(h, U.Rx(rx)), RzMat(h, rz)))
  {
    hide IsCircle, Alike, Euler, RzMat, Times, Wrap, U.Rx;
    var t, p := Round(g.theta, prec), Round(g.phi, prec);
    var z := if t == 0 then g.phi + g.lambda else if t == PI then PI - g.phi + g.lambda
             else if p == PI_3_2 then g.lambda - PI_1_2 else g.lambda + PI_1_2;
    hide Round;
    RzWraps(h, z);
    if t == 0 {
      NoRx(h, g.phi, g.lambda);
    } else if t == PI {
      HalfTurnRx(h, g.phi, g.lambda);
    } else if p == PI_3_2 {
      RxOne(h, g.theta, g.lambda);
    } else {
      RxBack(h, g.theta, g.lambda);
    }
  }

  /** rx as Euler angles that need not be normalised. */
  function RxMat(h: Circle, a: int): Mat {
    Euler(h, a, PI_3_2, PI_1_2)
  }

  lemma RxAlike(h: Circle, a: Angle, z: int)
    requires IsCircle(h)
    ensures Alike(Times(RxMat(h, a), RzMat(h, z)), Times(Matrix(h, U.Rx(a)), RzMat(h, z)))
  {
    hide *;
    RxIs(a);
    RxMatIs(h, a);
    NewAlike(h, a, PI_3_2, PI_1_2);
    AlikeRefl(RzMat(h, z));
    AlikeTimes(RzMat(h, z), RzMat(h, z), RxMat(h, a), Matrix(h, U.Rx(a)));
  }

  lemma RxIs(a: Angle)
    ensures U.Rx(a) == U.New(a, PI_3_2, PI_1_2)
  {
    hide U.New;
  }

  lemma RxMatIs(h: Circle, a: int)
    ensures RxMat(h, a) == Euler(h, a, PI_3_2, PI_1_2)
  {
    hide Euler;
  }

  /** A turn about Z before the rotation is a change of the last angle. */
  lemma EulerShift(h: Circle, theta: int, phi: int, lam: int, z: int)
    requires IsCircle(h)
    ensures Times(Euler(h, theta, phi, lam), RzMat(h, z)) == Euler(h, theta, phi, z + lam)
  {
    hide *;
    AroundEuler(h, theta, phi, lam, z, 0);
    AroundIs(h, Euler(h, theta, phi, lam), z);
    RzNothing(h, Times(Euler(h, theta, phi, lam), RzMat(h, z)));
    assert phi + 0 == phi;
  }

  lemma AroundIs(h: Circle, m: Mat, first: int)
    ensures Around(h, m, first, 0) == Times(RzMat(h, 0), Times(m, RzMat(h, first)))
  {
    hide Times, RzMat;
  }

  lemma NoRx(h: Circle, phi: int, lam: int)
    requires IsCircle(h)
    ensures Alike(Euler(h, 0, phi, lam), Times(Matrix(h, U.Rx(0)), RzMat(h, phi + lam)))
  {
    hide *;
    EulerAtZero(h, phi, lam);
    EulerShift(h, 0, PI_3_2, PI_1_2, phi + lam);
    EulerAtZero(h, PI_3_2, phi + lam + PI_1_2);
    Quarters();
    PhaseOfTurn(h, PI_3_2 + (phi + lam + PI_1_2), phi + lam);
    RxMatIs(h, 0);
    RxAlike(h, 0, phi + lam);
  }

  lemma PhaseOfTurn(h: Circle, x: int, y: int)
    requires IsCircle(h) && x == y + TURN
    ensures RzMat(h, x) == RzMat(h, y) && Phase(h, x) == Phase(h, y)
  {
    hide IsCircle, Phase;
    PhaseTurns(h, y, 1);
    assert y + 1 * TURN == x;
  }

  lemma HalfTurnRx(h: Circle, phi: int, lam: int)
    requires IsCircle(h)
    ensures Alike(Euler(h, PI, phi, lam), Times(Matrix(h, U.Rx(PI)), RzMat(h, PI - phi + lam)))
  {
    hide *;
    var z := PI - phi + lam;
    RxMatIs(h, PI);
    EulerShift(h, PI, PI_3_2, PI_1_2, z);
    Quarters();
    HalfTurns(h, phi, lam, PI_3_2, z + PI_1_2);
    RxAlike(h, PI, z);
    AlikeTrans(Euler(h, PI, phi, lam), Euler(h, PI, PI_3_2, z + PI_1_2), Times(Matrix(h, U.Rx(PI)), RzMat(h, z)));
  }

  /** Of a half turn, only the difference of the outer angles matters. */
  lemma HalfTurns(h: Circle, phi: int, lam: int, phi': int, lam': int)
    requires IsCircle(h) && (phi - lam == phi' - lam' || phi - lam + TURN == phi' - lam' || phi - lam == phi' - lam' + TURN)
    ensures Alike(Euler(h, PI, phi, lam), Euler(h, PI, phi', lam'))
  {
    hide IsCircle, Alike, Euler, Mul, Minus, Phase, IsUnit;
    var u := Phase(h, lam' - lam);
    EulerAtPi(h, phi, lam);
    EulerAtPi(h, phi', lam');
    PhaseAdds(h, lam' - lam, lam);
    PhaseAdds(h, lam' - lam, phi);
    var y := lam' - lam + phi;
    if phi - lam + TURN == phi' - lam' {
      PhaseOfTurn(h, phi', y);
    } else if phi - lam == phi' - lam' + TURN {
      PhaseOfTurn(h, y, phi');
    }
    MinusMul(u, Phase(h, lam));
    Units(u);
    AlikeBy(Euler(h, PI, phi, lam), Euler(h, PI, phi', lam'), u);
  }

  lemma RxOne(h: Circle, theta: Angle, lam: int)
    requires IsCircle(h)
    ensures Alike(Euler(h, theta, PI_3_2, lam), Times(Matrix(h, U.Rx(theta)), RzMat(h, lam - PI_1_2)))
  {
    hide *;
    RxMatIs(h, theta);
    EulerShift(h, theta, PI_3_2, PI_1_2, lam - PI_1_2);
    Quarters();
    assert lam - PI_1_2 + PI_1_2 == lam;
    RxAlike(h, theta, lam - PI_1_2);
  }

  lemma RxBack(h: Circle, theta: Angle, lam: int)
    requires IsCircle(h)
    ensures Alike(Euler(h, theta, PI_1_2, lam), Times(Matrix(h, U.Rx(Neg(theta))), RzMat(h, lam + PI_1_2)))
  {
    hide *;
    var t: int := theta;
    FlippedTheta(h, theta, PI_1_2, lam);
    NegIs(theta);
    EulerWraps(h, -t, PI_1_2 + HALF_TURN, lam + HALF_TURN);
    var e := Euler(h, Neg(theta), Wrap(PI_1_2 + HALF_TURN), Wrap(lam + HALF_TURN));
    WrapAngle(PI_3_2);
    Quarters();
    assert PI_1_2 + HALF_TURN == PI_3_2 && lam + PI_1_2 + PI_1_2 == lam + HALF_TURN;
    RxMatIs(h, Neg(theta));
    EulerShift(h, Neg(theta), PI_3_2, PI_1_2, lam + PI_1_2);
    EulerSame(h, Neg(theta), PI_3_2, lam + HALF_TURN);
    RxAlike(h, Neg(theta), lam + PI_1_2);
    AlikeTrans(Euler(h, theta, PI_1_2, lam), e, Times(Matrix(h, U.Rx(Neg(theta))), RzMat(h, lam + PI_1_2)));
  }

  lemma NegIs(theta: Angle)
    ensures var t: int := theta; Neg(theta) == Wrap(-t)
  {
    hide Wrap;
  }

  lemma EulerSame(h: Circle, theta: int, phi: int, lam: int)
    requires IsCircle(h)
    ensures Euler(h, theta, phi, Wrap(lam)) == Euler(h, theta, phi, lam)
  {
    hide *;
    EulerIs(h, theta, phi, lam);
    EulerIs(h, theta, phi, Wrap(lam));
    RzWraps(h, lam);
  }

  /** A rotation about X is an rx matrix. */
  lemma RxIsRx(h: Circle, a: Angle)
    requires IsCircle(h)
    ensures IsRx(Matrix(h, U.Rx(a)))
  {
    hide IsCircle, Alike, Euler, Wrap;
    RxIs(a);
    hide U.Rx, U.New;
    NewAlike(h, a, PI_3_2, PI_1_2);
    RxMatIsRx(h, a);
    AlikeIsRx(Euler(h, a, PI_3_2, PI_1_2), Matrix(h, U.Rx(a)));
  }

  lemma RxMatIsRx(h: Circle, a: int)
    requires IsCircle(h)
    ensures IsRx(Euler(h, a, PI_3_2, PI_1_2))
  {
    hide IsCircle, Phase, CosHalf, SinHalf, Mul, Minus;
    PhaseValues(h);
    PhaseBack(h);
    PhaseOfTurn(h, PI_3_2, -QUARTER);
    var s := SinHalf(h, a);
    MinusMul(I, s);
    Units(CosHalf(h, a));
    assert PI_3_2 + PI_1_2 == TURN;
  }

  lemma AlikeIsRx(m: Mat, n: Mat)
    requires Alike(m, n) && IsRx(m)
    ensures IsRx(n)
  {
    hide Mul;
  }

  /** A zero anywhere stays a zero. */
  lemma AlikeKeepsZeros(m: Mat, n: Mat)
    requires Alike(m, n)
    ensures IsDiagonal(m) ==> IsDiagonal(n)
    ensures IsAntidiagonal(m) ==> IsAntidiagonal(n)
  {
    var g :| IsUnit(g) && n == ScaleMat(g, m);
    Units(g);
    hide Mul;
  }

  /** Without an rz part the gate is a rotation about X; without an rx part it is diagonal. */
  lemma PartsMissing(h: Circle, g: U.U3, prec: nat)
    requires IsCircle(h) && U.IsPlain(g, prec) && U.ToRzRx(g, prec).Some?
    ensures var (rz, rx) := U.ToRzRx(g, prec).value;
      (rz == 0 ==> IsRx(Matrix(h, g))) && (rx == 0 ==> IsDiagonal(Matrix(h, g)))
  {
    var (rz, rx) := U.ToRzRx(g, prec).value;
    hide IsCircle, Alike, Euler, RzMat, Times, U.ToRzRx, U.Rx;
    RzRxProduct(h, g, prec);
    var n := Times(Matrix(h, U.Rx(rx)), RzMat(h, rz));
    AlikeSym(Matrix(h, g), n);
    if rz == 0 {
      RzNothing(h, Matrix(h, U.Rx(rx)));
      RxIsRx(h, rx);
      AlikeIsRx(n, Matrix(h, g));
    }
    if rx == 0 {
      NoRotation(h, rz);
      AlikeKeepsZeros(n, Matrix(h, g));
    }
  }

  lemma NoRotation(h: Circle, rz: int)
    requires IsCircle(h)
    ensures IsDiagonal(Times(Matrix(h, U.Rx(0)), RzMat(h, rz)))
  {
    hide IsCircle, Euler, Times, Phase, Mul;
    var g := U.Rx(0);
    assert g == U.U3(0, 0, 0);
    EulerAtZero(h, 0, 0);
    TimesRight(h, Matrix(h, g), rz);
    Units(Phase(h, rz));
  }

  // rz, then h, then rz

  lemma RzHRzProduct(h: Circle, g: U.U3, prec: nat)
    requires IsCircle(h) && U.IsPlain(g, prec) && U.ToRzHRz(g, prec).Some?
    ensures var (rz1, rz2) := U.ToRzHRz(g, prec).value;
      Matrix(h, g) == Times(Matrix(h, U.U3(PI_1_2, rz2, PI)), RzMat(h, rz1)) && (rz1 == 0 ==> g == U.U3(PI_1_2, rz2, PI))
  {
    hide IsCircle, Euler, RzMat, Times;
    hide Round;
    EulerShift(h, PI_1_2, g.phi, PI, g.lambda - PI);
    RzWraps(h, g.lambda - PI);
    assert g.lambda - PI + PI == g.lambda;
  }

  lemma HRzTurnsPhaseToX(h: Circle, rz: Angle)
    requires IsCircle(h)
    ensures TurnsPhaseToX(Matrix(h, U.U3(PI_1_2, rz, PI)))
  {
    hide IsCircle, Phase, CosHalf, SinHalf, Mul, Minus;
    PhaseValues(h);
    EighthTurns(h);
    PhaseAdds(h, rz, HALF_TURN);
    var c, p := CosHalf(h, QUARTER), Phase(h, rz);
    Units(c);
    MulAssoc(p, Minus(ONE), c);
    MinusMul(p, c);
  }

  lemma RzHTurnsXToPhase(h: Circle, g: U.U3, prec: nat)
    requires IsCircle(h) && U.IsPlain(g, prec) && U.ToRzHRz(g, prec).Some?
    ensures var rz2 := U.ToRzHRz(g, prec).value.1;
      (rz2 == 0 ==> TurnsXToPhase(Matrix(h, g), false)) && (rz2 == PI ==> TurnsXToPhase(Matrix(h, g), true))
  {
    hide IsCircle, Phase, CosHalf, SinHalf, Mul, Minus;
    hide Round;
    PhaseValues(h);
    EighthTurns(h);
    PhaseAdds(h, HALF_TURN, g.lambda);
    var c, p := CosHalf(h, QUARTER), Phase(h, g.lambda);
    Units(c);
    Units(p);
    Units(Mul(p, c));
    MinusMul(p, c);
  }

  // Staying on the grid

  lemma NewIsFine(theta: Angle, phi: Angle, lam: Angle, prec: nat)
    requires prec >= 2 && OnGrid(theta, prec) && OnGrid(phi, prec) && OnGrid(lam, prec)
    ensures U.IsFine(U.New(theta, phi, lam), prec)
  {
    TurnsOnGrid(prec);
    GridSum(phi, lam, prec);
    GridSum(phi, PI, prec);
    GridSum(lam, PI, prec);
    GridSum(theta, theta, prec);
    hide OnGrid, Wrap;
    NegIs(theta);
  }

  /** The parts of a decomposition are on the grid as well. */
  lemma PartsOnGrid(g: U.U3, prec: nat)
    requires U.IsFine(g, prec)
    ensures U.ToCxRz(g, prec).Some? ==> OnGrid(U.ToCxRz(g, prec).value.1, prec)
    ensures U.ToRzRx(g, prec).Some? ==> OnGrid(U.ToRzRx(g, prec).value.0, prec) && OnGrid(U.ToRzRx(g, prec).value.1, prec)
    ensures U.ToRzRx(g, prec).Some? ==> U.IsFine(U.Rx(U.ToRzRx(g, prec).value.1), prec)
    ensures U.ToRzHRz(g, prec).Some? ==>
      var (rz1, rz2) := U.ToRzHRz(g, prec).value;
      OnGrid(rz1, prec) && OnGrid(rz2, prec) && U.IsFine(U.U3(PI_1_2, rz2, PI), prec)
  {
    var t, p, l: int := g.theta, g.phi, g.lambda;
    TurnsOnGrid(prec);
    GridSum(p, l, prec);
    GridSum(PI, p, prec);
    GridSum(PI + p, l, prec);
    GridSum(PI - p, l, prec);
    GridSum(l, PI_1_2, prec);
    GridSum(l, PI, prec);
    GridSum(t, t, prec);
    NegIs(g.theta);
    NewIsFine(g.theta, PI_3_2, PI_1_2, prec);
    NewIsFine(Neg(g.theta), PI_3_2, PI_1_2, prec);
    NewIsFine(0, PI_3_2, PI_1_2, prec);
    NewIsFine(PI, PI_3_2, PI_1_2, prec);
    hide OnGrid, Wrap, Round, U.New;
  }

  /** A gate on the grid is plain. */
  lemma FineIsPlain(g: U.U3, prec: nat)
    requires U.IsFine(g, prec)
    ensures U.IsPlain(g, prec)
  {
    PartsOnGrid(g, prec);
    PlainAngles(g.theta, prec);
    PlainAngles(g.phi, prec);
    if U.ToCxRz(g, prec).Some? {
      PlainAngles(U.ToCxRz(g, prec).value.1, prec);
    }
    if U.ToRzRx(g, prec).Some? {
      PlainAngles(U.ToRzRx(g, prec).value.0, prec);
      PlainAngles(U.ToRzRx(g, prec).value.1, prec);
    }
    if U.ToRzHRz(g, prec).Some? {
      PlainAngles(U.ToRzHRz(g, prec).value.0, prec);
      PlainAngles(U.ToRzHRz(g, prec).value.1, prec);
    }
    hide U.ToCxRz, U.ToRzRx, U.ToRzHRz, OnGrid, IsPlain, Circ;
  }

  /** Composing stays on the grid, if the floating-point path does where it is taken. */
  lemma ComposeIsFine(numeric: U.Numeric, a: U.U3, b: U.U3, prec: nat)
    requires U.IsFine(a, prec) && U.IsFine(b, prec)
    requires var z := Wrap(a.phi + b.lambda); U.IsNumeric(a.theta, z, b.theta) ==> U.IsFine(numeric(a.theta, z, b.theta), prec)
    ensures U.IsFine(U.Compose(numeric, a, b), prec)
  {
    ComposeIs(numeric, a, b);
    var z := Wrap(a.phi + b.lambda);
    GridSum(a.phi, b.lambda, prec);
    hide OnGrid, Wrap, U.Compose;
    YzyIsFine(numeric, a.theta, z, b.theta, prec);
    hide U.FromYzy;
    var r := U.FromYzy(numeric, a.theta, z, b.theta);
    GridSum(r.phi, b.phi, prec);
    GridSum(a.lambda, r.lambda, prec);
    NewIsFine(r.theta, Wrap(r.phi + b.phi), Wrap(a.lambda + r.lambda), prec);
  }

  lemma YzyIsFine(numeric: U.Numeric, t1: Angle, z: Angle, t2: Angle, prec: nat)
    requires prec >= 2 && OnGrid(t1, prec) && OnGrid(z, prec) && OnGrid(t2, prec)
    requires U.IsNumeric(t1, z, t2) ==> U.IsFine(numeric(t1, z, t2), prec)
    ensures U.IsFine(U.FromYzy(numeric, t1, z, t2), prec)
  {
    TurnsOnGrid(prec);
    GridSum(t1, t2, prec);
    GridSum(t2, t1, prec);
    GridSum(t2, PI, prec);
    GridSum(t1, PI, prec);
    GridSum(PI, z, prec);
    GridSum(z, z, prec);
    NegIs(z);
    hide OnGrid, Wrap, Neg;
    NewIsFine(Wrap(t1 + t2), 0, 0, prec);
    NewIsFine(Wrap(t2 - t1), 0, PI, prec);
    NewIsFine(t2, 0, z, prec);
    NewIsFine(Wrap(t2 + PI), 0, Neg(z), prec);
    NewIsFine(t1, z, 0, prec);
    NewIsFine(Wrap(t1 + PI), Neg(z), 0, prec);
    NewIsFine(Wrap(PI - z), PI_1_2, PI_1_2, prec);
    hide U.New;
  }

  /** What is left of a Clifford gate is Clifford. */
  lemma PartsClifford(g: U.U3, prec: nat)
    requires IsClifford(g)
    ensures U.ToRzRx(g, prec).Some? ==> IsClifford(U.Rx(U.ToRzRx(g, prec).value.1))
    ensures U.ToRzHRz(g, prec).Some? ==> IsClifford(U.U3(PI_1_2, U.ToRzHRz(g, prec).value.1, PI))
  {
    hide Round;
    NegQuarters(g.theta);
    NewClifford(g.theta, PI_3_2, PI_1_2);
    NewClifford(Neg(g.theta), PI_3_2, PI_1_2);
    NewClifford(0, PI_3_2, PI_1_2);
    NewClifford(PI, PI_3_2, PI_1_2);
    hide U.New, Wrap, Neg;
  }

  lemma NegQuarters(a: Angle)
    requires a % PI_1_2 == 0
    ensures Neg(a) % PI_1_2 == 0
  {
    QuarterSums(0, a);
    NegIs(a);
    hide Wrap;
  }

  // As circuits

  lemma RzMatIs(h: Circle, a: int)
    ensures RzMat(h, a) == Mat(ONE, ZERO, ZERO, Phase(h, a))
  {
    hide Phase;
  }

  /** A gate with an rz part in front is that part as an operation, and the rest. */
  lemma SplitRz(h: Circle, q: Qubit, m: Mat, n: Mat, a: Angle)
    requires IsCircle(h) && Alike(m, Times(n, RzMat(h, a)))
    ensures Same(h, [Single(q, m)], [Controlled(PhaseOp(q, true, a)), Single(q, n)])
  {
    var r := RzMat(h, a);
    hide *;
    RzMatIs(h, a);
    AlikeSame(h, q, m, Times(n, r));
    SinglesMultiply(h, q, r, n);
    SameSym(h, [Single(q, r), Single(q, n)], [Single(q, Times(n, r))]);
    PhaseIsDiagonal(h, q, true, a);
    SameSym(h, [Controlled(PhaseOp(q, true, a))], [Single(q, r)]);
    SameSuffix(h, [Single(q, r)], [Controlled(PhaseOp(q, true, a))], [Single(q, n)]);
    assert [Single(q, r)] + [Single(q, n)] == [Single(q, r), Single(q, n)];
    assert [Controlled(PhaseOp(q, true, a))] + [Single(q, n)] == [Controlled(PhaseOp(q, true, a)), Single(q, n)];
    SameTrans(h, [Single(q, m)], [Single(q, Times(n, r))], [Single(q, r), Single(q, n)]);
    SameTrans(h, [Single(q, m)], [Single(q, r), Single(q, n)], [Controlled(PhaseOp(q, true, a)), Single(q, n)]);
  }

  /** An x and an rz, as operations. */
  lemma XRzAsOps(h: Circle, q: Qubit, m: Mat, a: Angle)
    requires IsCircle(h) && Alike(m, Times(RzMat(h, a), XMat))
    ensures Same(h, [Single(q, m)], [Controlled(FlipOp(q)), Controlled(PhaseOp(q, true, a))])
  {
    var r, o := RzMat(h, a), PhaseOp(q, true, a);
    hide *;
    RzMatIs(h, a);
    AlikeSame(h, q, m, Times(r, XMat));
    SinglesMultiply(h, q, XMat, r);
    SameSym(h, [Single(q, XMat), Single(q, r)], [Single(q, Times(r, XMat))]);
    FlipIsX(h, q);
    SameSym(h, [Controlled(FlipOp(q))], [Single(q, XMat)]);
    PhaseIsDiagonal(h, q, true, a);
    SameSym(h, [Controlled(o)], [Single(q, r)]);
    SamePair(h, Single(q, XMat), Controlled(FlipOp(q)), Single(q, r), Controlled(o));
    SameTrans(h, [Single(q, m)], [Single(q, Times(r, XMat))], [Single(q, XMat), Single(q, r)]);
    SameTrans(h, [Single(q, m)], [Single(q, XMat), Single(q, r)], [Controlled(FlipOp(q)), Controlled(o)]);
  }

  lemma SamePair(h: Circle, f: Gate, f': Gate, g: Gate, g': Gate)
    requires Same(h, [f], [f']) && Same(h, [g], [g'])
    ensures Same(h, [f, g], [f', g'])
  {
    hide *;
    SameSuffix(h, [f], [f'], [g]);
    SamePrefix(h, [f'], [g], [g']);
    assert [f] + [g] == [f, g] && [f'] + [g] == [f', g] && [f'] + [g'] == [f', g'];
    SameTrans(h, [f, g], [f', g], [f', g']);
  }

  /** An rz, as an operation. */
  lemma RzAsOp(h: Circle, q: Qubit, m: Mat, a: Angle)
    requires IsCircle(h) && Alike(m, RzMat(h, a))
    ensures Same(h, [Single(q, m)], [Controlled(PhaseOp(q, true, a))])
  {
    var r := RzMat(h, a);
    hide *;
    RzMatIs(h, a);
    AlikeSame(h, q, m, r);
    PhaseIsDiagonal(h, q, true, a);
    SameSym(h, [Controlled(PhaseOp(q, true, a))], [Single(q, r)]);
    SameTrans(h, [Single(q, m)], [Single(q, r)], [Controlled(PhaseOp(q, true, a))]);
  }
}
