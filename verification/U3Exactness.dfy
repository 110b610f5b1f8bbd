/**
 When rounding is right about a gate (`src/u3.rs`, `src/simulator.rs`): exactly when what a decomposition gives
 multiplies to the gate, and what is queued for it does what it does.
 */
module U3Exactness {
  import opened Wrappers
  import opened Angles
  import opened Controls
  import opened Ops
  import opened Complexes
  import opened Circuits
  import opened CircuitRules
  import opened U3Matrices
  import opened U3Decompositions
  import opened PendingGates
  import opened LazyStates
  import opened U3NormalForms
  import U = U3Gates
  import UC = U3Composition
  import Q = CompileQueue

  // Circuits of one gate

  /** Vectors that are one on a single basis state. */
  function Basis(b: Bits): Vec {
    (x: Bits) => if x == b then ONE else ZERO
  }

  /** The entries of the matrix, read off from what it does to two vectors. */
  lemma MatrixRead(h: Circle, q: Qubit, m: Mat)
    ensures var c, e, f := [Single(q, m)], Basis({}), Basis({q});
      Mat(Amp(h, c, e, {}), Amp(h, c, f, {}), Amp(h, c, e, {q}), Amp(h, c, f, {q})) == m
  {
    var c, e, f := [Single(q, m)], Basis({}), Basis({q});
    var none, only: Bits := {}, {q};
    assert none - {q} == none && none + {q} == only && only - {q} == none && only + {q} == only && none != only;
    AmpOne(h, Single(q, m), e, none);
    AmpOne(h, Single(q, m), f, none);
    AmpOne(h, Single(q, m), e, only);
    AmpOne(h, Single(q, m), f, only);
    LinFirst(m.a, m.b);
    LinFirst(m.c, m.d);
    hide Lin, Amp;
  }

  lemma LinFirst(x: Complex, y: Complex)
    ensures Lin(x, ONE, y, ZERO) == x && Lin(x, ZERO, y, ONE) == y
  {
  }

  /** Gates that do the same up to phase have the same matrix up to phase. */
  lemma SameIsAlike(h: Circle, q: Qubit, m: Mat, n: Mat)
    requires Same(h, [Single(q, m)], [Single(q, n)])
    ensures Alike(m, n)
  {
    var g :| SameBy(h, [Single(q, m)], [Single(q, n)], g);
    hide Amp, Mul;
    MatrixRead(h, q, m);
    MatrixRead(h, q, n);
    AlikeBy(m, n, g);
  }

  // What is queued

  /** The matrix of the operations that are queued for an x and an rz. */
  function SfreeMat(h: Circle, isX: bool, rz: int): Mat {
    if isX then Mat(ZERO, ONE, Phase(h, rz), ZERO) else RzMat(h, rz)
  }

  lemma XThenRz(h: Circle, rz: int)
    ensures Times(RzMat(h, rz), XMat) == SfreeMat(h, true, rz)
  {
    var p := Phase(h, rz);
    LinFirst(ONE, ZERO);
    LinFirst(ZERO, p);
    hide Phase, Lin;
  }

  lemma QueuedSfree(q: Qubit, isX: bool, rz: Angle, prec: nat)
    ensures var x, p := Controlled(FlipOp(q)), Controlled(PhaseOp(q, true, rz));
      Queued(SfreeOps(q, isX, rz, prec)) ==
        if isX && Round(rz, prec) != 0 then [x, p] else if isX then [x] else if Round(rz, prec) != 0 then [p] else []
  {
    hide Round;
  }

  lemma SfreeMatIs(h: Circle, isX: bool, rz: int)
    requires IsCircle(h)
    ensures SfreeMat(h, isX, rz) == if isX then Times(RzMat(h, rz), XMat) else RzMat(h, rz)
    ensures SfreeMat(h, true, 0) == XMat
  {
    hide Times, RzMat, Phase, IsCircle;
    XThenRz(h, rz);
    CircleZero(h);
  }

  lemma SfreeOpsMat(h: Circle, q: Qubit, isX: bool, rz: Angle, prec: nat)
    requires IsCircle(h)
    ensures Same(h, [Single(q, SfreeMat(h, isX, if Round(rz, prec) == 0 then 0 else rz))], Queued(SfreeOps(q, isX, rz, prec)))
  {
    var a: Angle := if Round(rz, prec) == 0 then 0 else rz;
    var m := SfreeMat(h, isX, a);
    QueuedSfree(q, isX, rz, prec);
    hide *;
    SfreeMatIs(h, isX, a);
    AlikeRefl(m);
    if isX && Round(rz, prec) != 0 {
      XRzAsOps(h, q, m, rz);
    } else if isX {
      XAsOp(h, q, m);
    } else if Round(rz, prec) != 0 {
      RzAsOp(h, q, m, rz);
    } else {
      NothingVanishes(h, q, m);
    }
  }

  lemma SfreeMatShape(h: Circle, isX: bool, rz: int)
    ensures var m := SfreeMat(h, isX, rz); if isX then IsAntidiagonal(m) else IsDiagonal(m)
  {
    hide Phase;
  }

  lemma SfreeMatAlike(h: Circle, isX: bool, a: Angle, b: Angle)
    requires IsCircle(h) && Alike(SfreeMat(h, isX, a), SfreeMat(h, isX, b)) && b == 0
    ensures a == 0
  {
    hide IsCircle;
    var m, n := SfreeMat(h, isX, a), SfreeMat(h, isX, b);
    var g :| IsUnit(g) && n == ScaleMat(g, m);
    Units(g);
    CircleZero(h);
    Units(Phase(h, a));
    PhaseOneIff(h, a);
    hide Mul, Phase;
    assert g == ONE;
  }

  /** What is queued for a gate that `to_cx_rz` takes for an x and an rz is the gate if and only if the gate really has
      no superposition and the rz, where it is dropped, is nothing. */
  lemma QueuedIff(h: Circle, q: Qubit, g: U.U3, prec: nat, isX: bool, rz: Angle)
    requires IsCircle(h) && U.ToCxRz(g, prec) == Some((isX, rz))
    ensures Same(h, [Pend(h, q, g)], Queued(SfreeOps(q, isX, rz, prec))) <==>
      Round(g.theta, prec) == g.theta && (Round(rz, prec) == 0 ==> rz == 0)
  {
    if Round(g.theta, prec) == g.theta && (Round(rz, prec) == 0 ==> rz == 0) {
      hide *;
      SfreeAsOps(h, q, g, prec, isX, rz);
    } else if Same(h, [Pend(h, q, g)], Queued(SfreeOps(q, isX, rz, prec))) {
      QueuedOnlyIf(h, q, g, prec, isX, rz);
    }
  }

  lemma QueuedOnlyIf(h: Circle, q: Qubit, g: U.U3, prec: nat, isX: bool, rz: Angle)
    requires IsCircle(h) && U.ToCxRz(g, prec) == Some((isX, rz))
    requires Same(h, [Pend(h, q, g)], Queued(SfreeOps(q, isX, rz, prec)))
    ensures Round(g.theta, prec) == g.theta && (Round(rz, prec) == 0 ==> rz == 0)
  {
    var a: Angle := if Round(rz, prec) == 0 then 0 else rz;
    var m, n, ops := Matrix(h, g), SfreeMat(h, isX, a), Queued(SfreeOps(q, isX, rz, prec));
    hide IsCircle, Same, Alike, Matrix, SfreeMat, SfreeOps, Queued, IsDiagonal, IsAntidiagonal, Round, Wrap, RzMat, Times;
    PendIs(h, q, g);
    SfreeOpsMat(h, q, isX, rz, prec);
    SameSym(h, [Single(q, n)], ops);
    SameTrans(h, [Single(q, m)], ops, [Single(q, n)]);
    SameIsAlike(h, q, m, n);
    AlikeSym(m, n);
    AlikeKeepsZeros(n, m);
    SfreeMatShape(h, isX, a);
    ShapeIff(h, g);
    assert g.theta == Round(g.theta, prec);
    if Round(rz, prec) == 0 {
      RzIsNothing(h, g, prec, isX, rz, n);
    }
  }

  lemma RzIsNothing(h: Circle, g: U.U3, prec: nat, isX: bool, rz: Angle, n: Mat)
    requires IsCircle(h) && U.ToCxRz(g, prec) == Some((isX, rz)) && Round(g.theta, prec) == g.theta
    requires n == SfreeMat(h, isX, 0) && Alike(Matrix(h, g), n)
    ensures rz == 0
  {
    var m := SfreeMat(h, isX, rz);
    hide *;
    CxRzProduct(h, g, prec);
    SfreeMatIs(h, isX, rz);
    assert Alike(Matrix(h, g), m);
    AlikeSym(Matrix(h, g), m);
    AlikeTrans(m, Matrix(h, g), n);
    SfreeMatAlike(h, isX, rz, 0);
  }

  /** The smallest rotation about Y at 32 bits: it is taken for nothing and is not. */
  lemma SmallRotationIsLost(h: Circle, q: Qubit)
    requires IsCircle(h)
    ensures U.ToCxRz(U.Ry(1), 32) == Some((false, 0))
    ensures !Same(h, [Pend(h, q, U.Ry(1))], Queued(SfreeOps(q, false, 0, 32)))
  {
    SmallIsNothing();
    hide *;
    QueuedIff(h, q, U.Ry(1), 32, false, 0);
  }

  lemma SmallIsNothing()
    ensures U.ToCxRz(U.Ry(1), 32) == Some((false, 0)) && Round(1, 32) == 0 && U.Ry(1).theta == 1
  {
    RoundsDown(31);
    hide Round;
  }

  lemma RoundsDown(k: nat)
    requires 0 < k < 64
    ensures Round(1, 63 - k) == 0
  {
    var half := Pow2(k);
    Pow2Mono(1, k);
    assert half >= 2 && Pow2(k + 1) == 2 * half;
    assert 1 % (2 * half) == 1;
  }

  // The other two decompositions

  /** At full precision rounding changes nothing. */
  lemma FullPrecision(g: U.U3)
    ensures U.IsPlain(g, 64)
  {
  }

  lemma HalfTurnRounds(prec: nat)
    requires prec > 0
    ensures Round(PI, prec) == PI && Round(0, prec) == 0
  {
    Pow2At64();
    TurnsOnGrid(prec);
    if prec == 1 {
      TimesIsMultiple(1, PI);
      assert Pow2(64) == 2 * Pow2(63);
    }
    GridRound(PI, prec);
    GridRound(0, prec);
  }

  /** `to_rz_h_rz` is right if and only if the gate superposes evenly. */
  lemma RzHRzIff(h: Circle, g: U.U3, prec: nat)
    requires IsCircle(h) && UC.IsNormal(g) && U.ToRzHRz(g, prec).Some?
    ensures var (rz1, rz2) := U.ToRzHRz(g, prec).value;
      Alike(Matrix(h, g), Times(Matrix(h, U.U3(PI_1_2, rz2, PI)), RzMat(h, rz1))) <==> g.theta == PI_1_2
  {
    var k := U.U3(PI_1_2, g.phi, g.lambda);
    assert U.ToRzHRz(k, 64) == U.ToRzHRz(g, prec);
    FullPrecision(k);
    hide IsCircle, Alike, Matrix, Times, RzMat, U.ToRzHRz, U.IsPlain, Round;
    RzHRzProduct(h, k, 64);
    NormalIsUnique(h, g, k);
  }

  /** The angle that `to_rz_rx` tests is the one it rounds to. */
  predicate TestIsRight(g: U.U3, prec: nat) {
    if U.IsSfree(g, prec) then Round(g.theta, prec) == g.theta else Round(g.phi, prec) == g.phi
  }

  /** The gate that `to_rz_rx` takes it for. */
  function TakenFor(g: U.U3, prec: nat): U.U3 {
    if U.IsSfree(g, prec) then U.U3(Round(g.theta, prec), g.phi, g.lambda) else U.U3(g.theta, Round(g.phi, prec), g.lambda)
  }

  lemma TakenParts(g: U.U3, prec: nat)
    requires U.ToRzRx(g, prec).Some?
    ensures U.ToRzRx(TakenFor(g, prec), 64) == U.ToRzRx(g, prec)
    ensures !U.IsSfree(g, prec) ==> g.theta != 0 && g.theta != PI
    ensures TestIsRight(g, prec) <==> TakenFor(g, prec) == g
  {
    if prec > 0 {
      HalfTurnRounds(prec);
    }
    assert Round(g.theta, 64) == g.theta;
    hide Wrap;
  }

  /** `to_rz_rx` is right if and only if that angle is the one it rounds to, in all four branches. */
  lemma RzRxIff(h: Circle, g: U.U3, prec: nat)
    requires IsCircle(h) && UC.IsNormal(g) && U.ToRzRx(g, prec).Some?
    ensures var (rz, rx) := U.ToRzRx(g, prec).value;
      Alike(Matrix(h, g), Times(Matrix(h, U.Rx(rx)), RzMat(h, rz))) <==> TestIsRight(g, prec)
  {
    var k := TakenFor(g, prec);
    var (rz, rx) := U.ToRzRx(g, prec).value;
    var m, n, p := Matrix(h, g), Matrix(h, k), Times(Matrix(h, U.Rx(rx)), RzMat(h, rz));
    TakenParts(g, prec);
    FullPrecision(k);
    hide IsCircle, Alike, Matrix, Times, RzMat, U.ToRzRx, U.IsPlain, U.Rx, IsDiagonal, IsAntidiagonal, Round;
    RzRxProduct(h, k, 64);
    if Alike(m, p) {
      AlikeSym(n, p);
      AlikeTrans(m, p, n);
      AlikeSym(m, n);
      AlikeKeepsZeros(n, m);
      ShapeIff(h, g);
      ShapeIff(h, k);
      if !U.IsSfree(g, prec) {
        NormalIsUnique(h, g, k);
      }
    }
  }

  // What is there is found

  /** A multiple of a quarter turn that is not mistaken for another one rounds to itself. */
  lemma QuarterRounds(a: Angle, prec: nat)
    requires a % PI_1_2 == 0 && Angles.IsPlain(a, prec)
    ensures Round(a, prec) == a
  {
    TurnsOnGrid(prec);
    if prec >= 2 {
      assert a == 0 || a == PI_1_2 || a == PI || a == PI_3_2;
      GridRound(a, prec);
    } else {
      RoundOnGrid(a, prec);
      CoarseTurns(Round(a, prec), prec);
    }
  }

  lemma CoarseTurns(r: Angle, prec: nat)
    requires prec < 2 && OnGrid(r, prec)
    ensures r % PI_1_2 == 0
  {
    Pow2At64();
    assert Pow2(64) == 2 * Pow2(63);
  }

  ghost predicate IsCxRz(h: Circle, m: Mat) {
    exists isX: bool, rz: Angle :: Alike(m, SfreeMat(h, isX, rz))
  }

  function RxRzMat(h: Circle, rz: Angle, rx: Angle): Mat {
    Times(Matrix(h, U.Rx(rx)), RzMat(h, rz))
  }

  ghost predicate IsRxRz(h: Circle, m: Mat) {
    exists rz: Angle, rx: Angle :: Alike(m, RxRzMat(h, rz, rx))
  }

  function RzHRzMat(h: Circle, rz1: Angle, rz2: Angle): Mat {
    Times(Matrix(h, U.U3(PI_1_2, rz2, PI)), RzMat(h, rz1))
  }

  ghost predicate IsRzHRz(h: Circle, m: Mat) {
    exists rz1: Angle, rz2: Angle :: Alike(m, RzHRzMat(h, rz1, rz2))
  }

  /** Each decomposition succeeds on a plain gate if and only if the gate has such parts at all. */
  lemma PartsFound(h: Circle, g: U.U3, prec: nat)
    requires IsCircle(h) && UC.IsNormal(g) && U.IsPlain(g, prec)
    ensures U.ToCxRz(g, prec).Some? <==> IsCxRz(h, Matrix(h, g))
    ensures U.ToRzRx(g, prec).Some? <==> IsRxRz(h, Matrix(h, g))
    ensures U.ToRzHRz(g, prec).Some? <==> IsRzHRz(h, Matrix(h, g))
  {
    hide *;
    CxRzFound(h, g, prec);
    RxRzFound(h, g, prec);
    RzHRzFound(h, g, prec);
  }

  lemma CxRzFound(h: Circle, g: U.U3, prec: nat)
    requires IsCircle(h) && U.IsPlain(g, prec)
    ensures U.ToCxRz(g, prec).Some? <==> IsCxRz(h, Matrix(h, g))
  {
    var m := Matrix(h, g);
    if U.ToCxRz(g, prec).Some? {
      var (isX, rz) := U.ToCxRz(g, prec).value;
      PlainSfree(g, prec, isX, rz);
      hide *;
      CxRzProduct(h, g, prec);
      SfreeMatIs(h, isX, rz);
      CxRzBy(h, m, isX, rz);
    } else if IsCxRz(h, m) {
      var isX: bool, rz: Angle :| Alike(m, SfreeMat(h, isX, rz));
      SfreeTheta(h, g, isX, rz);
      if prec > 0 {
        HalfTurnRounds(prec);
      }
    }
  }

  lemma CxRzBy(h: Circle, m: Mat, isX: bool, rz: Angle)
    requires Alike(m, SfreeMat(h, isX, rz))
    ensures IsCxRz(h, m)
  {
  }

  lemma SfreeTheta(h: Circle, g: U.U3, isX: bool, rz: Angle)
    requires IsCircle(h) && Alike(Matrix(h, g), SfreeMat(h, isX, rz))
    ensures g.theta == if isX then PI else 0
  {
    hide IsCircle, Alike, Matrix, SfreeMat, IsDiagonal, IsAntidiagonal;
    var m, n := Matrix(h, g), SfreeMat(h, isX, rz);
    AlikeSym(m, n);
    AlikeKeepsZeros(n, m);
    SfreeMatShape(h, isX, rz);
    ShapeIff(h, g);
  }

  lemma RzHRzFound(h: Circle, g: U.U3, prec: nat)
    requires IsCircle(h) && UC.IsNormal(g) && U.IsPlain(g, prec)
    ensures U.ToRzHRz(g, prec).Some? <==> IsRzHRz(h, Matrix(h, g))
  {
    var m := Matrix(h, g);
    if U.ToRzHRz(g, prec).Some? {
      var (rz1, rz2) := U.ToRzHRz(g, prec).value;
      hide *;
      RzHRzProduct(h, g, prec);
      RzHRzBy(h, m, rz1, rz2);
    } else if IsRzHRz(h, m) {
      var rz1: Angle, rz2: Angle :| Alike(m, RzHRzMat(h, rz1, rz2));
      EvenTheta(h, g, rz1, rz2);
      assert Angles.IsPlain(g.theta, prec);
      QuarterRounds(g.theta, prec);
    }
  }

  lemma RzHRzBy(h: Circle, m: Mat, rz1: Angle, rz2: Angle)
    requires m == Times(Matrix(h, U.U3(PI_1_2, rz2, PI)), RzMat(h, rz1))
    ensures IsRzHRz(h, m)
  {
    AlikeRefl(m);
    assert m == RzHRzMat(h, rz1, rz2);
    hide Alike, RzHRzMat;
  }

  /** The product of a gate and an rz before it is the gate with that much more of the first rotation. */
  lemma RzBefore(h: Circle, g: U.U3, z: Angle)
    requires IsCircle(h)
    ensures Times(Matrix(h, g), RzMat(h, z)) == Matrix(h, U.U3(g.theta, g.phi, Wrap(g.lambda + z)))
  {
    EulerShift(h, g.theta, g.phi, g.lambda, z);
    LastWraps(h, g.theta, g.phi, z + g.lambda);
    hide *;
    assert z + g.lambda == g.lambda + z;
    UC.MatrixIs(h, g);
    UC.MatrixIs(h, U.U3(g.theta, g.phi, Wrap(g.lambda + z)));
  }

  lemma LastWraps(h: Circle, theta: int, phi: int, lam: int)
    requires IsCircle(h)
    ensures Euler(h, theta, phi, Wrap(lam)) == Euler(h, theta, phi, lam)
  {
    hide IsCircle, CosHalf, SinHalf, Phase, Mul, Minus, Wrap;
    PhaseWraps(h, lam);
    PhaseAdds(h, phi, lam);
    PhaseAdds(h, phi, Wrap(lam));
  }

  lemma EvenTheta(h: Circle, g: U.U3, rz1: Angle, rz2: Angle)
    requires IsCircle(h) && UC.IsNormal(g) && Alike(Matrix(h, g), RzHRzMat(h, rz1, rz2))
    ensures g.theta == PI_1_2
  {
    var k := U.U3(PI_1_2, rz2, Wrap(PI + rz1));
    assert RzHRzMat(h, rz1, rz2) == Times(Matrix(h, U.U3(PI_1_2, rz2, PI)), RzMat(h, rz1));
    hide IsCircle, Alike, Matrix, RzMat, Times, RzHRzMat;
    RzBefore(h, U.U3(PI_1_2, rz2, PI), rz1);
    NormalIsUnique(h, g, k);
  }

  lemma RxRzFound(h: Circle, g: U.U3, prec: nat)
    requires IsCircle(h) && UC.IsNormal(g) && U.IsPlain(g, prec)
    ensures U.ToRzRx(g, prec).Some? <==> IsRxRz(h, Matrix(h, g))
  {
    var m := Matrix(h, g);
    if U.ToRzRx(g, prec).Some? {
      var (rz, rx) := U.ToRzRx(g, prec).value;
      hide *;
      RzRxProduct(h, g, prec);
      RxRzBy(h, m, rz, rx);
    } else if IsRxRz(h, m) {
      var rz: Angle, rx: Angle :| Alike(m, RxRzMat(h, rz, rx));
      RxPhi(h, g, rz, rx);
      if g.theta == 0 || g.theta == PI {
        QuarterRounds(g.theta, prec);
      } else {
        QuarterRounds(g.phi, prec);
      }
    }
  }

  lemma RxRzBy(h: Circle, m: Mat, rz: Angle, rx: Angle)
    requires Alike(m, Times(Matrix(h, U.Rx(rx)), RzMat(h, rz)))
    ensures IsRxRz(h, m)
  {
    assert Alike(m, RxRzMat(h, rz, rx));
    hide Alike, RxRzMat;
  }

  lemma RxPhi(h: Circle, g: U.U3, rz: Angle, rx: Angle)
    requires IsCircle(h) && UC.IsNormal(g) && Alike(Matrix(h, g), RxRzMat(h, rz, rx))
    ensures g.theta == 0 || g.theta == PI || g.phi == PI_1_2 || g.phi == PI_3_2
  {
    var n := U.Rx(rx);
    var k := U.U3(n.theta, n.phi, Wrap(n.lambda + rz));
    assert RxRzMat(h, rz, rx) == Times(Matrix(h, n), RzMat(h, rz));
    RxShape(rx);
    hide IsCircle, Alike, Matrix, RzMat, Times, RxRzMat, U.Rx, IsDiagonal, IsAntidiagonal;
    RzBefore(h, n, rz);
    AlikeSym(Matrix(h, g), Matrix(h, k));
    AlikeKeepsZeros(Matrix(h, k), Matrix(h, g));
    ShapeIff(h, g);
    ShapeIff(h, k);
    if 0 < n.theta < PI {
      NormalIsUnique(h, g, k);
    }
  }

  lemma RxShape(rx: Angle)
    ensures var n := U.Rx(rx); n.theta <= PI && (0 < n.theta < PI ==> n.phi == PI_1_2 || n.phi == PI_3_2)
  {
  }

  // What blocks

  /** A plain gate in normal form waits for the queue exactly if the queue reads its qubit and the gate is not diagonal, or
      the queue writes it and the gate does not commute with x. */
  lemma BlockedIff(h: Circle, g: U.U3, prec: nat, read: set<Qubit>, written: set<Qubit>, q: Qubit)
    requires IsCircle(h) && UC.IsNormal(g) && U.IsPlain(g, prec)
    ensures Q.IsBlocked(read, written, q, g, prec) <==>
      (q in read && !IsDiagonal(Matrix(h, g))) || (q in written && !IsRx(Matrix(h, g)))
  {
    hide IsCircle, Matrix, IsDiagonal, IsRx, U.ToRzRx, U.IsPlain, UC.IsNormal, Round;
    ShapeIff(h, g);
    if U.ToRzRx(g, prec).Some? {
      PlainParts(g, prec);
      PartsMissing(h, g, prec);
      RxPart(g, prec);
      RzPart(h, g, prec);
    } else {
      NoParts(g, prec);
      if IsRx(Matrix(h, g)) {
        RxAngles(h, g);
      }
    }
  }

  lemma RxPart(g: U.U3, prec: nat)
    requires U.IsPlain(g, prec) && U.ToRzRx(g, prec).Some?
    ensures g.theta == 0 <==> U.ToRzRx(g, prec).value.1 == 0
  {
    PlainTheta(g, prec);
    NegZero(g.theta);
    hide Wrap, Neg, Round, U.IsPlain;
  }

  lemma NegZero(a: Angle)
    ensures Neg(a) == 0 <==> a == 0
  {
  }

  lemma PlainTheta(g: U.U3, prec: nat)
    requires U.IsPlain(g, prec)
    ensures g.theta == 0 || g.theta == PI ==> Round(g.theta, prec) == g.theta
    ensures g.phi == PI_1_2 || g.phi == PI_3_2 ==> Round(g.phi, prec) == g.phi
    ensures Round(g.theta, prec) == 0 || Round(g.theta, prec) == PI ==> Round(g.theta, prec) == g.theta
    ensures Round(g.phi, prec) == PI_1_2 || Round(g.phi, prec) == PI_3_2 ==> Round(g.phi, prec) == g.phi
  {
    hide Round, U.BothPlain, U.ToCxRz, U.ToRzRx, U.ToRzHRz;
    if g.theta % PI_1_2 == 0 {
      QuarterRounds(g.theta, prec);
    }
    if g.phi % PI_1_2 == 0 {
      QuarterRounds(g.phi, prec);
    }
  }

  lemma NoParts(g: U.U3, prec: nat)
    requires U.IsPlain(g, prec) && U.ToRzRx(g, prec).None?
    ensures g.theta != 0 && g.theta != PI && g.phi != PI_1_2 && g.phi != PI_3_2
  {
    PlainTheta(g, prec);
    hide Wrap, Neg, Round, U.IsPlain;
  }

  /** What commutes with x has these angles only. */
  lemma RxAngles(h: Circle, g: U.U3)
    requires IsCircle(h) && UC.IsNormal(g) && IsRx(Matrix(h, g))
    ensures g.theta == 0 ==> g.phi == 0
    ensures g.theta == PI ==> g.phi == PI
    ensures g.theta != 0 && g.theta != PI ==> (g.phi == PI_1_2 && g.lambda == PI_3_2) || (g.phi == PI_3_2 && g.lambda == PI_1_2)
  {
    hide IsCircle, Matrix, Minus, Phase;
    if g.theta == 0 {
      ShapeOfTurns(h, g);
      PhaseOneIff(h, g.phi);
    } else if g.theta == PI {
      ShapeOfTurns(h, g);
      PhaseValues(h);
      SamePhase(h, g.phi, PI);
    } else {
      RxPhases(h, g);
      SamePhase(h, Wrap(g.phi + g.lambda), 0);
      SamePhase(h, g.phi, Wrap(g.lambda + PI));
      FourthsOnly(g.phi, g.lambda);
    }
  }

  lemma FourthsOnly(phi: Angle, lam: Angle)
    requires Wrap(phi + lam) == 0 && phi == Wrap(lam + PI)
    ensures (phi == PI_1_2 && lam == PI_3_2) || (phi == PI_3_2 && lam == PI_1_2)
  {
  }

  lemma RxPhases(h: Circle, g: U.U3)
    requires IsCircle(h) && IsRx(Matrix(h, g)) && g.theta != 0 && g.theta != PI
    ensures Phase(h, Wrap(g.phi + g.lambda)) == Phase(h, 0) && Phase(h, g.phi) == Phase(h, Wrap(g.lambda + PI))
  {
    hide IsCircle, Phase, CosHalf, SinHalf, Mul, Minus;
    RealHalves(h, g.theta);
    SinZeroIff(h, g.theta);
    CosZeroIff(h, g.theta);
    PhaseValues(h);
    PhaseWraps(h, g.phi + g.lambda);
    PhaseWraps(h, g.lambda + PI);
    PhaseAdds(h, g.lambda, PI);
    RxMeans(Phase(h, g.lambda), Phase(h, g.phi), Phase(h, g.phi + g.lambda), h(g.theta).re, h(g.theta).im);
  }

  lemma RxMeans(p: Complex, q: Complex, both: Complex, c: real, s: real)
    requires c != 0.0 && s != 0.0
    requires Complex(c, 0.0) == Mul(both, Complex(c, 0.0)) && Minus(Mul(p, Complex(s, 0.0))) == Mul(q, Complex(s, 0.0))
    ensures both == ONE && q == Mul(p, Minus(ONE))
  {
    hide Mul, Minus;
    Units(Complex(c, 0.0));
    RealCancels(ONE, both, c);
    MinusMul(p, Complex(s, 0.0));
    RealCancels(Minus(p), q, s);
    Units(p);
    MulCommutes(p, Minus(ONE));
  }

  lemma RzPart(h: Circle, g: U.U3, prec: nat)
    requires IsCircle(h) && UC.IsNormal(g) && U.IsPlain(g, prec) && U.ToRzRx(g, prec).Some?
    ensures IsRx(Matrix(h, g)) ==> U.ToRzRx(g, prec).value.0 == 0
  {
    PlainTheta(g, prec);
    hide U.IsPlain, U.ToRzRx, Matrix, IsRx, IsCircle;
    if IsRx(Matrix(h, g)) {
      RxAngles(h, g);
      NoRzPart(g, prec);
    }
  }

  lemma NoRzPart(g: U.U3, prec: nat)
    requires U.ToRzRx(g, prec).Some? && UC.IsNormal(g)
    requires Round(g.theta, prec) == 0 || Round(g.theta, prec) == PI ==> Round(g.theta, prec) == g.theta
    requires Round(g.phi, prec) == PI_1_2 || Round(g.phi, prec) == PI_3_2 ==> Round(g.phi, prec) == g.phi
    requires g.theta == 0 ==> Round(g.theta, prec) == 0 && g.phi == 0
    requires g.theta == PI ==> Round(g.theta, prec) == PI && g.phi == PI
    requires g.theta != 0 && g.theta != PI ==> (g.phi == PI_1_2 && g.lambda == PI_3_2) || (g.phi == PI_3_2 && g.lambda == PI_1_2)
    ensures U.ToRzRx(g, prec).value.0 == 0
  {
    assert Wrap(0 + 0) == 0 && Wrap(PI - PI + 0) == 0 && Wrap(PI_1_2 - PI_1_2) == 0 && Wrap(PI_3_2 + PI_1_2) == 0;
    hide Wrap, Round, Neg;
  }

  // What blocks, for a reason

  /** Flips `q` where `c` is 1. */
  function FlipBy(c: Qubit, q: Qubit): CtlOp {
    CtlOp([ControlItem(c, true)], X(q))
  }

  /** Turns where both qubits are 1. */
  function TurnBoth(c: Qubit, q: Qubit): CtlOp {
    CtlOp(if c < q then [ControlItem(c, true), ControlItem(q, true)] else [ControlItem(q, true), ControlItem(c, true)], Gphase(PI))
  }

  ghost predicate Commutes(h: Circle, g: Gate, o: CtlOp) {
    Same(h, [g, Controlled(o)], [Controlled(o), g])
  }

  /** What the two circuits make of a single basis state. */
  function First(h: Circle, g: Gate, o: CtlOp, x: Bits, b: Bits): Complex {
    OneStep(h, Controlled(o), Made(h, g, Basis(x)), b)
  }

  function Second(h: Circle, g: Gate, o: CtlOp, x: Bits, b: Bits): Complex {
    OneStep(h, g, Made(h, Controlled(o), Basis(x)), b)
  }

  lemma CommutesBy(h: Circle, g: Gate, o: CtlOp) returns (u: Complex)
    requires Commutes(h, g, o)
    ensures forall x, b :: Second(h, g, o, x, b) == Mul(u, First(h, g, o, x, b))
  {
    u :| SameBy(h, [g, Controlled(o)], [Controlled(o), g], u);
    hide Amp, OneStep, Made, Mul, Basis;
    forall x, b ensures Second(h, g, o, x, b) == Mul(u, First(h, g, o, x, b)) {
      AmpTwo(h, g, Controlled(o), Basis(x), b);
      AmpTwo(h, Controlled(o), g, Basis(x), b);
    }
  }

  lemma FlipByReads(h: Circle, q: Qubit, c: Qubit, v: Vec, b: Bits)
    requires IsCircle(h) && c != q
    ensures OneOp(h, FlipBy(c, q), v, b) == v(if c in b then Flip(b, {q}) else b)
  {
    FlipReads(h, FlipBy(c, q), q, v, b);
    assert Holds(FlipBy(c, q).ctl, b) <==> c in b by {
      assert FlipBy(c, q).ctl[0] == ControlItem(c, true);
    }
    hide IsCircle;
  }

  lemma TurnBothReads(h: Circle, q: Qubit, c: Qubit, v: Vec, b: Bits)
    requires IsCircle(h) && c != q
    ensures OneOp(h, TurnBoth(c, q), v, b) == if c in b && q in b then Minus(v(b)) else v(b)
  {
    var o := TurnBoth(c, q);
    assert Holds(o.ctl, b) <==> c in b && q in b by {
      assert o.ctl[0].value && o.ctl[1].value && {o.ctl[0].qubit, o.ctl[1].qubit} == {c, q};
      assert o.ctl[0].qubit in {c, q} && o.ctl[1].qubit in {c, q};
    }
    hide IsCircle;
    PhaseValues(h);
    Units(v(b));
    hide Phase, Mul, Minus, Holds;
  }

  lemma FourStates(q: Qubit, c: Qubit)
    requires c != q
    ensures var n: Bits, x: Bits, y: Bits, both: Bits := {}, {q}, {c}, {c, q};
      && n - {q} == n && n + {q} == x && x - {q} == n && x + {q} == x && y - {q} == y && y + {q} == both
      && both - {q} == y && both + {q} == both && Flip(y, {q}) == both && Flip(both, {q}) == y
      && n != x && n != y && n != both && x != y && x != both && y != both
  {
    assert q in {q} && q !in {c} && q in {c, q} && c in {c, q} && c !in {q};
  }

  /** Where the control qubit is 0, neither circuit does more than the gate. */
  lemma PlainEntries(h: Circle, q: Qubit, c: Qubit, m: Mat, o: CtlOp)
    requires IsCircle(h) && c != q && (o == FlipBy(c, q) || o == TurnBoth(c, q))
    ensures var g := Single(q, m);
      && First(h, g, o, {}, {q}) == Second(h, g, o, {}, {q}) == m.c && First(h, g, o, {q}, {}) == Second(h, g, o, {q}, {}) == m.b
      && First(h, g, o, {q}, {q}) == Second(h, g, o, {q}, {q}) == m.d
  {
    var g := Single(q, m);
    forall v: Vec, b: Bits | c !in b ensures OneOp(h, o, v, b) == v(b) {
      FlipByReads(h, q, c, v, b);
      TurnBothReads(h, q, c, v, b);
    }
    FourStates(q, c);
    hide IsCircle, OneOp, FlipBy, TurnBoth, Lin;
    LinFirst(m.a, m.b);
    LinFirst(m.c, m.d);
  }

  lemma FlipEntries(h: Circle, q: Qubit, c: Qubit, m: Mat)
    requires IsCircle(h) && c != q
    ensures var g, o := Single(q, m), FlipBy(c, q);
      && First(h, g, o, {c}, {c}) == m.c && Second(h, g, o, {c}, {c}) == m.b
      && First(h, g, o, {c, q}, {c}) == m.d && Second(h, g, o, {c, q}, {c}) == m.a
  {
    var o := FlipBy(c, q);
    forall v: Vec, b: Bits | c in b ensures OneOp(h, o, v, b) == v(Flip(b, {q})) {
      FlipByReads(h, q, c, v, b);
    }
    FourStates(q, c);
    hide IsCircle, OneOp, FlipBy, Lin, Flip;
    LinFirst(m.a, m.b);
    LinFirst(m.c, m.d);
  }

  lemma TurnEntries(h: Circle, q: Qubit, c: Qubit, m: Mat)
    requires IsCircle(h) && c != q
    ensures var g, o := Single(q, m), TurnBoth(c, q);
      && First(h, g, o, {c, q}, {c}) == m.b && Second(h, g, o, {c, q}, {c}) == Minus(m.b)
      && First(h, g, o, {c}, {c, q}) == Minus(m.c) && Second(h, g, o, {c}, {c, q}) == m.c
  {
    var o := TurnBoth(c, q);
    forall v: Vec, b: Bits ensures OneOp(h, o, v, b) == if c in b && q in b then Minus(v(b)) else v(b) {
      TurnBothReads(h, q, c, v, b);
    }
    FourStates(q, c);
    hide IsCircle, OneOp, TurnBoth, Lin, Minus;
    LinFirst(m.a, m.b);
    LinFirst(m.c, m.d);
    LinMinus(m.a, m.b);
    LinMinus(m.c, m.d);
  }

  lemma LinMinus(x: Complex, y: Complex)
    ensures Lin(x, ZERO, y, Minus(ONE)) == Minus(y) && Minus(ZERO) == ZERO
  {
  }

  /** A gate commutes with a turn where its qubit and another one are 1 exactly if it is diagonal, and with a flip of its
      qubit where another one is 1 exactly if it commutes with x. */
  lemma CommutesIff(h: Circle, q: Qubit, c: Qubit, m: Mat)
    requires IsCircle(h) && c != q
    ensures Commutes(h, Single(q, m), TurnBoth(c, q)) <==> IsDiagonal(m)
    ensures Commutes(h, Single(q, m), FlipBy(c, q)) <==> IsRx(m)
  {
    var g := Single(q, m);
    if IsDiagonal(m) {
      DiagonalCommutes(h, q, m, TurnBoth(c, q));
    } else if Commutes(h, g, TurnBoth(c, q)) {
      OnlyDiagonal(h, q, c, m);
    }
    if IsRx(m) {
      RxCommutes(h, q, m, FlipBy(c, q));
    } else if Commutes(h, g, FlipBy(c, q)) {
      OnlyRx(h, q, c, m);
    }
  }

  lemma OnlyDiagonal(h: Circle, q: Qubit, c: Qubit, m: Mat)
    requires IsCircle(h) && c != q && Commutes(h, Single(q, m), TurnBoth(c, q))
    ensures IsDiagonal(m)
  {
    hide IsCircle, Commutes, First, Second, Mul, Minus, TurnBoth;
    PlainEntries(h, q, c, m, TurnBoth(c, q));
    TurnEntries(h, q, c, m);
    var u := CommutesBy(h, Single(q, m), TurnBoth(c, q));
    MinusMul(u, m.c);
    OwnMinus(m.b);
    OwnMinus(m.c);
  }

  lemma OwnMinus(x: Complex)
    ensures x == Minus(x) ==> x == ZERO
  {
  }

  lemma OnlyRx(h: Circle, q: Qubit, c: Qubit, m: Mat)
    requires IsCircle(h) && c != q && Commutes(h, Single(q, m), FlipBy(c, q))
    ensures IsRx(m)
  {
    hide IsCircle, Commutes, First, Second, Mul, FlipBy;
    PlainEntries(h, q, c, m, FlipBy(c, q));
    FlipEntries(h, q, c, m);
    var u := CommutesBy(h, Single(q, m), FlipBy(c, q));
  }

  /** A plain gate in normal form waits for the queue if and only if the queue reads its qubit, and the gate does not
      commute with some operation that only reads it, or writes it, and it does not commute with some that does. */
  lemma BlockedForAReason(h: Circle, g: U.U3, prec: nat, read: set<Qubit>, written: set<Qubit>, q: Qubit, c: Qubit)
    requires IsCircle(h) && UC.IsNormal(g) && U.IsPlain(g, prec) && c != q
    ensures Q.IsBlocked(read, written, q, g, prec) <==>
      (q in read && !Commutes(h, Pend(h, q, g), TurnBoth(c, q))) || (q in written && !Commutes(h, Pend(h, q, g), FlipBy(c, q)))
  {
    hide *;
    BlockedIff(h, g, prec, read, written, q);
    CommutesIff(h, q, c, Matrix(h, g));
    PendIs(h, q, g);
  }
}
