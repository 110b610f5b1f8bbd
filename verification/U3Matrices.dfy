/** What the Euler-angle gates mean as matrices (`src/u3.rs`, `src/u4.rs`), and that their decompositions are exact. */
module U3Matrices {
  import opened Angles
  import opened Complexes
  import opened Circuits
  import opened CircuitRules
  import U = U3Gates

  const HALF := Complex(0.5, 0.0)
  const HALF_MINUS_I := Complex(0.0, -0.5)

  /** Cosine and sine of half an angle. */
  function CosHalf(h: Circle, t: int): Complex {
    Mul(HALF, Add(h(t), h(-t)))
  }

  function SinHalf(h: Circle, t: int): Complex {
    Mul(HALF_MINUS_I, Add(h(t), Minus(h(-t))))
  }

  function RyMat(h: Circle, t: int): Mat {
    Mat(CosHalf(h, t), Minus(SinHalf(h, t)), SinHalf(h, t), CosHalf(h, t))
  }

  /** rz(lam); ry(theta); rz(phi), as `U4` is made from a `U3`. */
  function Euler(h: Circle, theta: int, phi: int, lam: int): Mat {
    Mat(CosHalf(h, theta), Minus(Mul(Phase(h, lam), SinHalf(h, theta))),
        Mul(Phase(h, phi), SinHalf(h, theta)), Mul(Phase(h, phi + lam), CosHalf(h, theta)))
  }

  function Matrix(h: Circle, g: U.U3): Mat {
    Euler(h, g.theta, g.phi, g.lambda)
  }

  // Values on the circle

  lemma CircleAdd(h: Circle, x: int, y: int)
    requires IsCircle(h)
    ensures h(x + y) == Mul(h(x), h(y)) && IsUnit(h(x))
  {
  }

  const HALF_TURN: int := PI
  const QUARTER: int := PI_1_2

  lemma TimesI(x: Complex)
    ensures Mul(I, x) == Complex(-x.im, x.re) && Mul(Minus(I), x) == Complex(x.im, -x.re) && Mul(Minus(ONE), x) == Minus(x)
  {
    assert 0.0 * x.re == 0.0 && 0.0 * x.im == 0.0 && 1.0 * x.im == x.im && 1.0 * x.re == x.re;
    assert -1.0 * x.im == -x.im && -1.0 * x.re == -x.re;
    assert Minus(I) == Complex(-0.0, -1.0) && Minus(ONE) == Complex(-1.0, -0.0);
  }

  lemma ProductsOfI()
    ensures Mul(I, I) == Minus(ONE) && Mul(Minus(ONE), Minus(ONE)) == ONE
    ensures Mul(Minus(ONE), I) == Minus(I) && Mul(I, Minus(I)) == ONE && Mul(Minus(I), Minus(I)) == Minus(ONE)
  {
    hide Mul, Minus;
    MinusOf(I);
    MinusOf(ONE);
    MinusOf(Minus(I));
    MinusOf(Minus(ONE));
    TimesI(I);
    TimesI(Minus(I));
    TimesI(Minus(ONE));
  }

  lemma MinusOf(x: Complex)
    ensures Minus(x).re == -x.re && Minus(x).im == -x.im
  {
  }

  lemma CircleValues(h: Circle)
    requires IsCircle(h)
    ensures h(0) == ONE && h(HALF_TURN) == I && h(TURN) == Minus(ONE) && h(2 * TURN) == ONE
  {
    assert h(HALF_TURN) == I;
    hide *;
    CircleZero(h);
    CircleAdd(h, HALF_TURN, HALF_TURN);
    CircleAdd(h, TURN, TURN);
    ProductsOfI();
  }

  /** Going back is dividing. */
  lemma CircleBack(h: Circle, x: int, v: Complex, u: Complex)
    requires IsCircle(h) && h(x) == v && Mul(v, u) == ONE
    ensures h(-x) == u
  {
    hide *;
    CircleZero(h);
    CircleAdd(h, x, -x);
    MulAssoc(h(-x), v, u);
    MulCommutes(h(-x), v);
    Units(u);
    Units(h(-x));
  }

  lemma PhaseAdds(h: Circle, x: int, y: int)
    requires IsCircle(h)
    ensures Phase(h, x + y) == Mul(Phase(h, x), Phase(h, y)) && IsUnit(Phase(h, x))
    ensures Mul(Phase(h, x), Phase(h, -x)) == ONE && Phase(h, 0) == ONE
  {
    hide IsCircle;
    CircleAdd(h, 2 * x, 2 * y);
    CircleAdd(h, 2 * x, -2 * x);
    CircleZero(h);
    assert 2 * (x + y) == 2 * x + 2 * y && 2 * -x == -2 * x;
  }

  lemma PhaseValues(h: Circle)
    requires IsCircle(h)
    ensures Phase(h, 0) == ONE && Phase(h, HALF_TURN) == Minus(ONE) && Phase(h, QUARTER) == I && Phase(h, TURN) == ONE
  {
    hide IsCircle;
    CircleValues(h);
    hide Mul, Minus;
  }

  lemma PhaseBack(h: Circle)
    requires IsCircle(h)
    ensures Phase(h, -HALF_TURN) == Minus(ONE) && Phase(h, -QUARTER) == Minus(I)
  {
    hide IsCircle, Mul, Minus;
    PhaseValues(h);
    ProductsOfI();
    CircleBack(h, 2 * HALF_TURN, Minus(ONE), Minus(ONE));
    CircleBack(h, 2 * QUARTER, I, Minus(I));
  }

  lemma {:induction false} PhaseTurns(h: Circle, x: int, k: nat)
    requires IsCircle(h)
    ensures Phase(h, x + k * TURN) == Phase(h, x) && Phase(h, x - k * TURN) == Phase(h, x)
    decreases k
  {
    hide IsCircle;
    if k > 0 {
      PhaseTurns(h, x, k - 1);
      PhaseValues(h);
      PhaseAdds(h, x + (k - 1) * TURN, TURN);
      PhaseAdds(h, x - k * TURN, TURN);
      Units(Phase(h, x));
      Units(Phase(h, x - k * TURN));
      hide Phase, Mul;
      assert x + k * TURN == x + (k - 1) * TURN + TURN && x - (k - 1) * TURN == x - k * TURN + TURN;
    }
  }

  /** Phases do not see whole turns. */
  lemma PhaseWraps(h: Circle, x: int)
    requires IsCircle(h)
    ensures Phase(h, Wrap(x)) == Phase(h, x)
  {
    hide IsCircle;
    var k := x / TURN;
    assert x == Wrap(x) + k * TURN;
    if k >= 0 {
      PhaseTurns(h, Wrap(x), k);
    } else {
      PhaseTurns(h, Wrap(x), -k);
    }
  }

  lemma HalfAngles(h: Circle, t: int)
    requires IsCircle(h)
    ensures CosHalf(h, -t) == CosHalf(h, t) && SinHalf(h, -t) == Minus(SinHalf(h, t))
  {
    hide IsCircle;
    assert -(-t) == t;
  }

  /** Turning theta round once changes the sign. */
  lemma HalfAnglesTurn(h: Circle, t: int)
    requires IsCircle(h)
    ensures CosHalf(h, t - TURN) == Minus(CosHalf(h, t)) && SinHalf(h, t - TURN) == Minus(SinHalf(h, t))
  {
    hide IsCircle, Mul, Add, Minus;
    CircleValues(h);
    ProductsOfI();
    CircleBack(h, TURN, Minus(ONE), Minus(ONE));
    CircleAdd(h, t, -TURN);
    CircleAdd(h, -t, TURN);
    assert -(t - TURN) == -t + TURN;
    Units(h(t));
    Units(h(-t));
    MulCommutes(h(t), Minus(ONE));
    MulCommutes(h(-t), Minus(ONE));
    HalfMinus(h(t), h(-t));
  }

  lemma HalfMinus(x: Complex, y: Complex)
    ensures Mul(HALF, Add(Minus(x), Minus(y))) == Minus(Mul(HALF, Add(x, y)))
    ensures Mul(HALF_MINUS_I, Add(Minus(x), Minus(Minus(y)))) == Minus(Mul(HALF_MINUS_I, Add(x, Minus(y))))
  {
  }

  lemma HalfValues(h: Circle)
    requires IsCircle(h)
    ensures CosHalf(h, 0) == ONE && SinHalf(h, 0) == ZERO && CosHalf(h, HALF_TURN) == ZERO && SinHalf(h, HALF_TURN) == ONE
  {
    hide IsCircle, Mul, Add, Minus;
    CircleValues(h);
    ProductsOfI();
    assert -0 == 0;
    CircleBack(h, HALF_TURN, I, Minus(I));
    HalvesOfOne();
  }

  lemma HalvesOfOne()
    ensures Mul(HALF, Add(ONE, ONE)) == ONE && Mul(HALF_MINUS_I, Add(ONE, Minus(ONE))) == ZERO
    ensures Mul(HALF, Add(I, Minus(I))) == ZERO && Mul(HALF_MINUS_I, Add(I, Minus(Minus(I)))) == ONE
  {
    HalvesOfSum(ONE, ONE);
    HalvesOfSum(I, Minus(I));
    MinusOf(I);
    MinusOf(ONE);
    MinusOf(Minus(I));
    hide Mul, Add, Minus;
  }

  lemma HalvesOfSum(x: Complex, y: Complex)
    ensures Mul(HALF, Add(x, y)) == Complex((x.re + y.re) * 0.5, (x.im + y.im) * 0.5)
    ensures Mul(HALF_MINUS_I, Add(x, Minus(y))) == Complex((x.im - y.im) * 0.5, (y.re - x.re) * 0.5)
  {
  }

  lemma EighthTurns(h: Circle)
    requires IsCircle(h)
    ensures CosHalf(h, QUARTER) == SinHalf(h, QUARTER)
  {
    hide IsCircle;
    CircleValues(h);
    var w, u := h(QUARTER), h(-QUARTER);
    CircleAdd(h, QUARTER, QUARTER);
    CircleAdd(h, QUARTER, -QUARTER);
    EighthTurn(w, u);
    HalvesOf(w);
  }

  lemma HalvesOf(w: Complex)
    ensures Mul(HALF, Add(w, Mul(Minus(I), w))) == Mul(HALF_MINUS_I, Add(w, Minus(Mul(Minus(I), w))))
  {
  }

  lemma EighthTurn(w: Complex, u: Complex)
    requires Mul(w, w) == I && Mul(w, u) == ONE
    ensures u == Mul(Minus(I), w)
  {
    MulAssoc(u, w, w);
    MulCommutes(u, w);
    Units(w);
    MulAssoc(u, I, Minus(I));
    ProductsOfI();
    Units(u);
    MulCommutes(w, Minus(I));
    hide *;
  }

  // The algebra of matrices

  lemma TimesAssoc(m: Mat, n: Mat, p: Mat)
    ensures Times(p, Times(n, m)) == Times(Times(p, n), m)
  {
    hide Lin;
    LinCombines(p.a, p.b, n.a, n.b, n.c, n.d, m.a, m.c);
    LinCombines(p.a, p.b, n.a, n.b, n.c, n.d, m.b, m.d);
    LinCombines(p.c, p.d, n.a, n.b, n.c, n.d, m.a, m.c);
    LinCombines(p.c, p.d, n.a, n.b, n.c, n.d, m.b, m.d);
  }

  lemma TimesScales(g: Complex, m: Mat, n: Mat)
    ensures Times(ScaleMat(g, n), m) == ScaleMat(g, Times(n, m)) && Times(n, ScaleMat(g, m)) == ScaleMat(g, Times(n, m))
  {
    hide Lin, Mul;
    LinScales(g, n.a, m.a, n.b, m.c);
    LinScales(g, n.a, m.b, n.b, m.d);
    LinScales(g, n.c, m.a, n.d, m.c);
    LinScales(g, n.c, m.b, n.d, m.d);
  }

  lemma ScaleTwice(f: Complex, g: Complex, m: Mat)
    ensures ScaleMat(g, ScaleMat(f, m)) == ScaleMat(Mul(g, f), m) && ScaleMat(ONE, m) == m
  {
    hide Mul;
    MulAssoc(g, f, m.a);
    MulAssoc(g, f, m.b);
    MulAssoc(g, f, m.c);
    MulAssoc(g, f, m.d);
    Units(m.a);
    Units(m.b);
    Units(m.c);
    Units(m.d);
  }

  lemma AlikeBy(m: Mat, n: Mat, g: Complex)
    requires IsUnit(g) && n == ScaleMat(g, m)
    ensures Alike(m, n)
  {
  }

  lemma AlikeRefl(m: Mat)
    ensures Alike(m, m)
  {
    ScaleTwice(ONE, ONE, m);
    AlikeBy(m, m, ONE);
  }

  lemma AlikeTrans(m: Mat, n: Mat, p: Mat)
    requires Alike(m, n) && Alike(n, p)
    ensures Alike(m, p)
  {
    var f :| IsUnit(f) && n == ScaleMat(f, m);
    var g :| IsUnit(g) && p == ScaleMat(g, n);
    hide *;
    UnitMul(g, f);
    ScaleTwice(f, g, m);
    AlikeBy(m, p, Mul(g, f));
  }

  lemma AlikeSym(m: Mat, n: Mat)
    requires Alike(m, n)
    ensures Alike(n, m)
  {
    var g :| IsUnit(g) && n == ScaleMat(g, m);
    hide *;
    UnitInverse(g);
    ScaleTwice(g, Conj(g), m);
    AlikeBy(n, m, Conj(g));
  }

  lemma AlikeTimes(m: Mat, m': Mat, n: Mat, n': Mat)
    requires Alike(m, m') && Alike(n, n')
    ensures Alike(Times(n, m), Times(n', m'))
  {
    var f :| IsUnit(f) && m' == ScaleMat(f, m);
    var g :| IsUnit(g) && n' == ScaleMat(g, n);
    hide *;
    TimesScales(f, m, n');
    TimesScales(g, m, n);
    ScaleTwice(g, f, Times(n, m));
    UnitMul(f, g);
    AlikeBy(Times(n, m), Times(n', m'), Mul(f, g));
  }

  lemma MinusIsUnit()
    ensures IsUnit(Minus(ONE)) && IsUnit(ONE)
  {
    MinusOf(ONE);
  }

  // Rotations

  lemma TimesRight(h: Circle, m: Mat, a: int)
    ensures Times(m, RzMat(h, a)) == Mat(m.a, Mul(m.b, Phase(h, a)), m.c, Mul(m.d, Phase(h, a)))
  {
    var p := Phase(h, a);
    hide Mul, Add;
    Units(m.a);
    Units(m.b);
    Units(m.c);
    Units(m.d);
    Units(Mul(m.b, p));
    Units(Mul(m.d, p));
  }

  lemma TimesLeft(h: Circle, m: Mat, a: int)
    ensures Times(RzMat(h, a), m) == Mat(m.a, m.b, Mul(Phase(h, a), m.c), Mul(Phase(h, a), m.d))
  {
    var p := Phase(h, a);
    hide Mul, Add;
    Units(m.a);
    Units(m.b);
    Units(m.c);
    Units(m.d);
    Units(Mul(p, m.c));
    Units(Mul(p, m.d));
  }

  lemma RzAdds(h: Circle, a: int, b: int)
    requires IsCircle(h)
    ensures Times(RzMat(h, b), RzMat(h, a)) == RzMat(h, a + b)
  {
    hide IsCircle, Times, Mul, Phase;
    TimesLeft(h, RzMat(h, a), b);
    PhaseAdds(h, b, a);
    Units(Phase(h, b));
    assert a + b == b + a;
  }

  lemma EulerIs(h: Circle, theta: int, phi: int, lam: int)
    requires IsCircle(h)
    ensures Euler(h, theta, phi, lam) == Times(RzMat(h, phi), Times(RyMat(h, theta), RzMat(h, lam)))
  {
    hide IsCircle, Times, Mul, Minus, Phase, CosHalf, SinHalf;
    var m := RyMat(h, theta);
    var p, c, s := Phase(h, lam), CosHalf(h, theta), SinHalf(h, theta);
    TimesRight(h, m, lam);
    TimesLeft(h, Times(m, RzMat(h, lam)), phi);
    PhaseAdds(h, phi, lam);
    MulCommutes(p, s);
    MulCommutes(p, c);
    MinusMul(s, p);
    MulAssoc(Phase(h, phi), p, c);
  }

  lemma RyAdds(h: Circle, a: int, b: int)
    requires IsCircle(h)
    ensures Times(RyMat(h, b), RyMat(h, a)) == RyMat(h, a + b)
  {
    hide IsCircle, Mul, Add, Minus;
    CircleAdd(h, a, b);
    CircleAdd(h, -a, -b);
    assert -(a + b) == -a + -b;
    HalfAngleSum(h(a), h(-a), h(b), h(-b));
  }

  function Cos(x: Complex, y: Complex): Complex {
    Mul(HALF, Add(x, y))
  }

  function Sin(x: Complex, y: Complex): Complex {
    Mul(HALF_MINUS_I, Add(x, Minus(y)))
  }

  /** x and x' are C + iS and C - iS. */
  lemma CosAndSin(x: Complex, x': Complex)
    ensures x == Add(Cos(x, x'), Mul(I, Sin(x, x'))) && x' == Add(Cos(x, x'), Minus(Mul(I, Sin(x, x'))))
  {
    HalvesOfSum(x, x');
    TimesI(Sin(x, x'));
  }

  lemma CosAndSinOf(p: Complex, q: Complex)
    ensures Cos(Add(p, Mul(I, q)), Add(p, Minus(Mul(I, q)))) == p && Sin(Add(p, Mul(I, q)), Add(p, Minus(Mul(I, q)))) == q
  {
    HalvesOfSum(Add(p, Mul(I, q)), Add(p, Minus(Mul(I, q))));
    TimesI(q);
  }

  lemma SumsMultiply(c: Complex, u: Complex, d: Complex, v: Complex)
    ensures Mul(Add(c, u), Add(d, v)) == Add(Add(Mul(d, c), Mul(v, u)), Add(Mul(v, c), Mul(d, u)))
  {
    hide Add, Mul;
    Distributes(Add(c, u), d, v);
    Distributes(d, c, u);
    Distributes(v, c, u);
    MulCommutes(Add(c, u), d);
    MulCommutes(Add(c, u), v);
    AddCommutes(Mul(v, c), Mul(v, u));
    Exchange(Mul(d, c), Mul(d, u), Mul(v, u), Mul(v, c));
    AddCommutes(Mul(d, u), Mul(v, c));
  }

  /** (C + iS) (D + iT) */
  lemma ProductOfSums(c: Complex, s: Complex, d: Complex, t: Complex)
    ensures Mul(Add(c, Mul(I, s)), Add(d, Mul(I, t))) == Add(Lin(d, c, Minus(t), s), Mul(I, Lin(t, c, d, s)))
  {
    hide Mul, Add, Minus;
    SumsMultiply(c, Mul(I, s), d, Mul(I, t));
    LinScales(I, t, c, d, s);
    Swapped(I, d, s);
    MulAssoc(I, d, s);
    MulAssoc(I, t, Mul(I, s));
    Swapped(t, I, s);
    MulAssoc(I, I, Mul(t, s));
    ProductsOfI();
    Units(Mul(t, s));
    MinusMul(t, s);
  }

  lemma HalfAngleSum(x: Complex, x': Complex, y: Complex, y': Complex)
    ensures Cos(Mul(x, y), Mul(x', y')) == Lin(Cos(y, y'), Cos(x, x'), Minus(Sin(y, y')), Sin(x, x'))
    ensures Cos(Mul(x, y), Mul(x', y')) == Lin(Sin(y, y'), Minus(Sin(x, x')), Cos(y, y'), Cos(x, x'))
    ensures Sin(Mul(x, y), Mul(x', y')) == Lin(Sin(y, y'), Cos(x, x'), Cos(y, y'), Sin(x, x'))
    ensures Minus(Sin(Mul(x, y), Mul(x', y'))) == Lin(Cos(y, y'), Minus(Sin(x, x')), Minus(Sin(y, y')), Cos(x, x'))
  {
    var c, s, d, t := Cos(x, x'), Sin(x, x'), Cos(y, y'), Sin(y, y');
    hide *;
    CosAndSin(x, x');
    CosAndSin(y, y');
    ProductOfSums(c, s, d, t);
    ProductOfDifferences(c, s, d, t);
    CosAndSinOf(Lin(d, c, Minus(t), s), Lin(t, c, d, s));
    LinSigns(c, s, d, t);
  }

  lemma ProductOfDifferences(c: Complex, s: Complex, d: Complex, t: Complex)
    ensures Mul(Add(c, Minus(Mul(I, s))), Add(d, Minus(Mul(I, t)))) == Add(Lin(d, c, Minus(t), s), Minus(Mul(I, Lin(t, c, d, s))))
  {
    ProductOfSums(c, Minus(s), d, Minus(t));
    MinusMul(I, s);
    MinusMul(I, t);
    LinMinus(t, c, d, s);
    LinMinus(d, c, t, s);
    LinMinus(d, c, Minus(t), Minus(s));
    MinusMul(I, Lin(t, c, d, s));
    LinOfMinus(t, c, d, s);
    Units(s);
    hide *;
  }

  lemma LinOfMinus(t: Complex, c: Complex, d: Complex, s: Complex)
    ensures Lin(Minus(t), c, d, Minus(s)) == Minus(Lin(t, c, d, s))
    ensures Lin(d, c, Minus(Minus(t)), Minus(s)) == Lin(d, c, Minus(t), s)
  {
    hide Mul, Add, Minus;
    MinusMul(t, c);
    MinusMul(d, s);
    MinusMul(Mul(t, c), Mul(d, s));
    MinusMul(Minus(t), s);
    MinusMul(Minus(Minus(t)), s);
    Units(Mul(Minus(t), s));
  }

  lemma LinSigns(c: Complex, s: Complex, d: Complex, t: Complex)
    ensures Lin(t, Minus(s), d, c) == Lin(d, c, Minus(t), s)
    ensures Minus(Lin(t, c, d, s)) == Lin(d, Minus(s), Minus(t), c)
  {
    hide Mul, Add, Minus;
    MinusMul(t, s);
    MinusMul(t, c);
    MinusMul(d, s);
    MinusMul(Mul(t, c), Mul(d, s));
    AddCommutes(Minus(Mul(t, s)), Mul(d, c));
    AddCommutes(Minus(Mul(t, c)), Minus(Mul(d, s)));
  }
}
