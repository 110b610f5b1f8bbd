/**
 The last path of `from_yzy` (`src/u3.rs`, `src/angle.rs`) over real numbers: the sines and cosines that it combines are
 the entries of the product, in every quadrant, and its angles are exact only where they are the polar angles of these.
 */
module U3Numeric {
  import opened Angles
  import opened Complexes
  import opened Circuits
  import opened CircuitRules
  import opened U3Matrices
  import opened U3Composition
  import opened U3NormalForms
  import U = U3Gates

  // Sines and cosines of half an angle

  predicate IsNegative(a: Angle) { a > PI }

  predicate SignedGt(a: Angle, b: Angle) { Wrap(a + PI - 1) > Wrap(b + PI - 1) }

  /** The angle as a turn of at most a half to either side. */
  function Balanced(a: Angle): int {
    if a <= PI then a else a - TURN
  }

  /** Sine and cosine of half an angle, from those of angles up to a quarter turn. */
  function HalfSinCos(h: Circle, a: Angle): (real, real) {
    var d := if IsNegative(a) then Neg(a) else a;
    var flip := d > PI_1_2;
    var e := if flip then Wrap(PI - d) else d;
    var (x, y) := if flip then (h(e).re, h(e).im) else (h(e).im, h(e).re);
    (x, if IsNegative(a) then -y else y)
  }

  function HalfDiffSinCos(h: Circle, a: Angle, b: Angle): (real, real) {
    var inv := !SignedGt(a, b);
    var (sin, cos) := HalfSinCos(h, if inv then Wrap(b - a) else Wrap(a - b));
    (if inv then -sin else sin, cos)
  }

  function HalfSumSinCos(h: Circle, a: Angle, b: Angle): (real, real) {
    HalfDiffSinCos(h, a, Neg(b))
  }

  /** Whatever quadrant the angle is in. */
  lemma HalfSinCosIs(h: Circle, a: Angle)
    requires IsCircle(h)
    ensures HalfSinCos(h, a) == (h(a).im, h(a).re)
  {
    hide IsCircle;
    var d: int := if IsNegative(a) then TURN - a else a;
    assert d == if IsNegative(a) then Neg(a) else a;
    FromHalfTurn(h, d);
    FromTurn(h, d);
    assert d > PI_1_2 ==> Wrap(PI - d) == PI - d;
    hide Wrap, Neg;
  }

  lemma FromHalfTurn(h: Circle, d: int)
    requires IsCircle(h)
    ensures h(PI - d) == Complex(h(d).im, h(d).re)
  {
    CircleValues(h);
    hide *;
    CircleConj(h, d);
    CircleAdd(h, PI, -d);
    assert PI + -d == PI - d;
    TimesI(Conj(h(d)));
    ConjIs(h(d));
  }

  lemma FromTurn(h: Circle, d: int)
    requires IsCircle(h)
    ensures h(TURN - d) == Complex(-h(d).re, h(d).im)
  {
    CircleValues(h);
    hide *;
    CircleConj(h, d);
    CircleAdd(h, TURN, -d);
    assert TURN + -d == TURN - d;
    TimesI(Conj(h(d)));
    ConjIs(h(d));
    MinusOf(Conj(h(d)));
  }

  lemma ConjIs(x: Complex)
    ensures Conj(x).re == x.re && Conj(x).im == -x.im
  {
  }

  lemma HalfDiffIs(h: Circle, a: Angle, b: Angle)
    requires IsCircle(h)
    ensures var d := Balanced(a) - Balanced(b); HalfDiffSinCos(h, a, b) == (h(d).im, h(d).re)
  {
    var x: int, y: int := Balanced(a), Balanced(b);
    BalancedOrder(a, b);
    CircleConj(h, y - x);
    ConjIs(h(y - x));
    hide IsCircle, Balanced, SignedGt, HalfSinCos;
    assert -(y - x) == x - y;
    if SignedGt(a, b) {
      HalfSinCosIs(h, Wrap(a - b));
    } else {
      HalfSinCosIs(h, Wrap(b - a));
    }
  }

  lemma BalancedOrder(a: Angle, b: Angle)
    ensures SignedGt(a, b) <==> Balanced(a) > Balanced(b)
    ensures SignedGt(a, b) ==> Wrap(a - b) == Balanced(a) - Balanced(b)
    ensures !SignedGt(a, b) ==> Wrap(b - a) == Balanced(b) - Balanced(a)
  {
    assert Wrap(a + PI - 1) == Balanced(a) + PI - 1;
    assert Wrap(b + PI - 1) == Balanced(b) + PI - 1;
    Rewound(a - b, Balanced(a) - Balanced(b));
    Rewound(b - a, Balanced(b) - Balanced(a));
  }

  lemma Rewound(x: int, y: int)
    requires x == y || x == y + TURN || x == y - TURN
    ensures 0 <= y < TURN ==> Wrap(x) == y
  {
  }

  // The two entries

  /** The entries of the second row, as the code computes them. */
  function Entries(h: Circle, ry1: Angle, rz: Angle, ry2: Angle): (Complex, Complex) {
    EntriesFrom(HalfDiffSinCos(h, ry1, ry2), HalfSumSinCos(h, ry1, ry2), rz, HalfSinCos(h, rz))
  }

  function EntriesFrom(diff: (real, real), sum: (real, real), rz: Angle, half: (real, real)): (Complex, Complex) {
    var (shd, chd) := diff;
    var (shs, chs) := sum;
    var (shz, chz) := half;
    if rz == PI_1_2 then (Complex(shs, shd), Complex(chs, chd))
    else if rz == PI_3_2 then (Complex(-shs, shd), Complex(-chs, chd))
    else (Complex(chz * shs, shz * shd), Complex(chz * chs, shz * chd))
  }

  /** Two rows of two numbers each, from the second row: the form of a product of rotations. */
  function Special(x: Complex, y: Complex): Mat {
    Mat(Conj(y), Minus(Conj(x)), x, y)
  }

  /** The rows from the middle angle and from the sum and the difference of the outer ones. */
  function Rows(e: Complex, sum: Complex, diff: Complex): (Complex, Complex) {
    (Complex(e.re * sum.im, e.im * diff.im), Complex(e.re * sum.re, e.im * diff.re))
  }

  /** a and b, turned by half an angle to either side. */
  function Twisted(e: Complex, a: real, b: real): Complex {
    Complex(e.re * (a + b), e.im * (b - a))
  }

  lemma RealTwist(e: Complex, a: real, b: real)
    requires IsUnit(e)
    ensures Add(Complex(a, 0.0), Mul(Complex(b, 0.0), Mul(e, e))) == Mul(e, Twisted(e, a, b))
  {
    var x, y := Complex(a, 0.0), Complex(b, 0.0);
    RealTimes(a, Conj(e));
    RealTimes(b, e);
    UnitInverse(e);
    var u, v := Mul(x, Conj(e)), Mul(y, e);
    assert Add(u, v) == Complex(a * e.re + b * e.re, -(a * e.im) + b * e.im);
    assert Add(u, v) == Twisted(e, a, b);
    hide Mul, Add, IsUnit, Twisted;
    Distributes(e, u, v);
    Swapped(e, x, Conj(e));
    Swapped(e, y, e);
    Units(x);
  }

  lemma RealTimes(a: real, x: Complex)
    ensures Mul(Complex(a, 0.0), x) == Complex(a * x.re, a * x.im)
  {
    assert 0.0 * x.re == 0.0 && 0.0 * x.im == 0.0;
  }

  lemma RealProducts(x: real, y: real, p: Complex)
    ensures Mul(Complex(x, 0.0), Complex(y, 0.0)) == Complex(x * y, 0.0)
    ensures Mul(Complex(x, 0.0), Mul(p, Complex(y, 0.0))) == Mul(Complex(x * y, 0.0), p)
    ensures Minus(Complex(x, 0.0)) == Complex(-x, 0.0)
  {
    assert x * 0.0 == 0.0 && 0.0 * y == 0.0 && p.im * 0.0 == 0.0 && p.re * 0.0 == 0.0 && 0.0 * p.im == 0.0 && 0.0 * p.re == 0.0;
    assert x * (p.re * y) == x * y * p.re && x * (p.im * y) == x * y * p.im;
    assert 0.0 * (p.re * y) == 0.0 && 0.0 * (p.im * y) == 0.0;
  }

  /** One entry of the product of three rotations. */
  lemma EntryOf(e: Complex, x2: real, y2: real, x1: real, y1: real, a: real, b: real)
    requires IsUnit(e) && a == x2 * x1 && b == y2 * y1
    ensures Lin(Complex(x2, 0.0), Complex(x1, 0.0), Complex(y2, 0.0), Mul(Mul(e, e), Complex(y1, 0.0))) == Mul(e, Twisted(e, a, b))
  {
    RealProducts(x2, x1, ONE);
    RealProducts(y2, y1, Mul(e, e));
    RealTwist(e, a, b);
    hide Mul, Add, Twisted;
  }

  /** The product of the rotations, up to half the middle angle. */
  lemma YzyRows(h: Circle, t1: int, z: int, t2: int)
    requires IsCircle(h)
    ensures var (x, y) := Rows(h(z), h(t1 + t2), h(t1 - t2)); Yzy(h, t1, z, t2) == ScaleMat(h(z), Special(x, y))
  {
    CircleAdd(h, z, z);
    CircleAdd(h, t1, t2);
    CircleAdd(h, t1, -t2);
    CircleConj(h, t2);
    RealHalves(h, t1);
    RealHalves(h, t2);
    assert t1 + -t2 == t1 - t2 && z + z == 2 * z;
    hide IsCircle, Times, CosHalf, SinHalf, ScaleMat, Special, Rows, Mul, Conj, Minus;
    TimesLeft(h, RyMat(h, t1), z);
    RealProducts(h(t1).im, 0.0, ONE);
    RealProducts(h(t2).im, 0.0, ONE);
    RowsOf(h(z), h(t1), h(t2));
  }

  /** The second angle, the middle one and the first one, as points of the circle. */
  lemma RowsOf(e: Complex, u: Complex, v: Complex)
    requires IsUnit(e)
    ensures var p := Mul(e, e);
      var first := Mat(Complex(u.re, 0.0), Complex(-u.im, 0.0), Mul(p, Complex(u.im, 0.0)), Mul(p, Complex(u.re, 0.0)));
      var (x, y) := Rows(e, Mul(u, v), Mul(u, Conj(v)));
      Times(Mat(Complex(v.re, 0.0), Complex(-v.im, 0.0), Complex(v.im, 0.0), Complex(v.re, 0.0)), first) == ScaleMat(e, Special(x, y))
  {
    hide Lin, Mul, IsUnit, Twisted, Conj, Minus, Rows;
    var cc, ss, sc, cs := v.re * u.re, v.im * u.im, v.im * u.re, v.re * u.im;
    NegatedProducts(u, v);
    EntryOf(e, v.re, -v.im, u.re, u.im, cc, -ss);
    EntryOf(e, v.re, -v.im, -u.im, u.re, -cs, -sc);
    EntryOf(e, v.im, v.re, u.re, u.im, sc, cs);
    EntryOf(e, v.im, v.re, -u.im, u.re, -ss, cc);
    SumAndDiff(u, v);
    RowsAre(e, Mul(u, v), Mul(u, Conj(v)), cc, ss, sc, cs);
  }

  lemma NegatedProducts(u: Complex, v: Complex)
    ensures -v.im * u.im == -(v.im * u.im) && v.re * -u.im == -(v.re * u.im)
    ensures -v.im * u.re == -(v.im * u.re) && v.im * -u.im == -(v.im * u.im)
  {
  }

  lemma SumAndDiff(x: Complex, y: Complex)
    ensures Mul(x, y) == Complex(y.re * x.re - y.im * x.im, y.im * x.re + y.re * x.im)
    ensures Mul(x, Conj(y)) == Complex(y.re * x.re + y.im * x.im, y.re * x.im - y.im * x.re)
  {
  }

  lemma RowsAre(e: Complex, sum: Complex, diff: Complex, cc: real, ss: real, sc: real, cs: real)
    requires sum == Complex(cc - ss, sc + cs) && diff == Complex(cc + ss, cs - sc)
    ensures var (x, y) := Rows(e, sum, diff);
      && Conj(y) == Twisted(e, cc, -ss) && Minus(Conj(x)) == Twisted(e, -cs, -sc)
      && x == Twisted(e, sc, cs) && y == Twisted(e, -ss, cc)
  {
    NegatedRow(e.re, sum.im);
    NegatedRow(e.im, diff.re);
  }

  lemma NegatedRow(a: real, b: real)
    ensures a * -b == -(a * b)
  {
  }

  // What the code combines

  function Stretch(k: real, x: Complex): Complex {
    Complex(k * x.re, k * x.im)
  }

  lemma TurnFlips(h: Circle, x: int)
    requires IsCircle(h)
    ensures h(x + TURN) == Stretch(-1.0, h(x)) && h(x - TURN) == Stretch(-1.0, h(x))
  {
    CircleValues(h);
    hide *;
    CircleAdd(h, x, TURN);
    CircleAdd(h, x - TURN, TURN);
    assert x - TURN + TURN == x;
    TimesI(h(x));
    TimesI(h(x - TURN));
    MulCommutes(h(x), Minus(ONE));
    MulCommutes(h(x - TURN), Minus(ONE));
    MinusOf(h(x));
    MinusOf(h(x - TURN));
    StretchBack(h(x));
  }

  lemma StretchBack(x: Complex)
    ensures Stretch(-1.0, x) == Complex(-x.re, -x.im)
  {
  }

  /** Reading two angles as balanced ones changes the sign of their sum and of their difference alike. */
  lemma BalancedSign(h: Circle, a: Angle, b: Angle) returns (k: real)
    requires IsCircle(h)
    ensures k == 1.0 || k == -1.0
    ensures h(a + b) == Stretch(k, h(Balanced(a) + Balanced(b))) && h(a - b) == Stretch(k, h(Balanced(a) - Balanced(b)))
  {
    var x: int, y: int := Balanced(a), Balanced(b);
    var sum, diff := x + y, x - y;
    TurnFlips(h, sum);
    TurnFlips(h, sum + TURN);
    TurnFlips(h, diff);
    StretchTwice(h(sum));
    StretchTwice(h(diff));
    hide IsCircle, Stretch;
    k := if (a <= PI) == (b <= PI) then 1.0 else -1.0;
    assert a + b == sum + (if a <= PI then 0 else TURN) + (if b <= PI then 0 else TURN);
    assert a - b == diff + (if a <= PI then 0 else TURN) - (if b <= PI then 0 else TURN);
  }

  lemma StretchTwice(x: Complex)
    ensures Stretch(-1.0, Stretch(-1.0, x)) == x && Stretch(1.0, x) == x
  {
  }

  lemma QuarterValues(h: Circle)
    requires IsCircle(h)
    ensures h(PI_1_2).re == h(PI_1_2).im != 0.0 && h(PI_3_2) == Complex(-h(PI_1_2).re, h(PI_1_2).re)
  {
    CircleValues(h);
    hide *;
    CircleAdd(h, PI_1_2, PI_1_2);
    CircleAdd(h, PI, PI_1_2);
    assert PI_1_2 + PI_1_2 == PI && PI + PI_1_2 == PI_3_2;
    TimesI(h(PI_1_2));
    RootOfI(h(PI_1_2));
  }

  lemma RootOfI(x: Complex)
    requires Mul(x, x) == I && IsUnit(x)
    ensures x.re == x.im != 0.0
  {
    var p, q := x.re * x.re, x.im * x.im;
    assert p - q == 0.0;
    assert x.re * x.im + x.re * x.im == 1.0;
    assert (x.re - x.im) * (x.re - x.im) == 0.0;
  }

  /** Without the factor of a quarter turn. */
  function Unscaled(e: Complex, z: Angle, sum: Complex, diff: Complex): (Complex, Complex) {
    if z == PI_1_2 then (Complex(sum.im, diff.im), Complex(sum.re, diff.re))
    else if z == PI_3_2 then (Complex(-sum.im, diff.im), Complex(-sum.re, diff.re))
    else Rows(e, sum, diff)
  }

  lemma EntriesAre(h: Circle, t1: Angle, z: Angle, t2: Angle)
    requires IsCircle(h) && t2 != PI
    ensures Entries(h, t1, z, t2) == Unscaled(h(z), z, h(Balanced(t1) + Balanced(t2)), h(Balanced(t1) - Balanced(t2)))
  {
    HalfDiffIs(h, t1, t2);
    HalfDiffIs(h, t1, Neg(t2));
    BalancedNeg(t2);
    HalfSinCosIs(h, z);
    hide IsCircle, HalfDiffSinCos, HalfSinCos, Balanced, Neg, EntriesFrom, Unscaled;
    assert Balanced(t1) - Balanced(Neg(t2)) == Balanced(t1) + Balanced(t2);
    FromIsUnscaled(h(z), z, h(Balanced(t1) + Balanced(t2)), h(Balanced(t1) - Balanced(t2)));
  }

  lemma FromIsUnscaled(e: Complex, z: Angle, sum: Complex, diff: Complex)
    ensures EntriesFrom((diff.im, diff.re), (sum.im, sum.re), z, (e.im, e.re)) == Unscaled(e, z, sum, diff)
  {
    var m, n := EntriesFrom((diff.im, diff.re), (sum.im, sum.re), z, (e.im, e.re)), Unscaled(e, z, sum, diff);
    assert m.0 == n.0;
    assert m.1 == n.1;
  }

  lemma BalancedNeg(a: Angle)
    requires a != PI
    ensures Balanced(Neg(a)) == -Balanced(a)
  {
  }

  /** The entries that the code computes are those of the product, up to one real factor: the sign of the balanced
      angles, and the square root of a half that is left out for a quarter turn. */
  lemma EntriesScale(h: Circle, t1: Angle, z: Angle, t2: Angle) returns (k: real)
    requires IsCircle(h) && t2 != PI
    ensures k != 0.0 && IsStretched(k, Entries(h, t1, z, t2), Rows(h(z), h(t1 + t2), h(t1 - t2)))
  {
    EntriesAre(h, t1, z, t2);
    QuarterValues(h);
    hide IsCircle, Entries, Balanced, Rows, IsStretched, Unscaled;
    var sign := BalancedSign(h, t1, t2);
    var r := h(PI_1_2).re;
    k := UnscaledRows(h(z), z, h(Balanced(t1) + Balanced(t2)), h(Balanced(t1) - Balanced(t2)), sign, r);
  }

  predicate IsStretched(k: real, m: (Complex, Complex), n: (Complex, Complex)) {
    n.0 == Stretch(k, m.0) && n.1 == Stretch(k, m.1)
  }

  lemma UnscaledRows(e: Complex, z: Angle, sum: Complex, diff: Complex, sign: real, r: real) returns (k: real)
    requires (sign == 1.0 || sign == -1.0) && r != 0.0
    requires z == PI_1_2 ==> e == Complex(r, r)
    requires z == PI_3_2 ==> e == Complex(-r, r)
    ensures k != 0.0 && IsStretched(k, Unscaled(e, z, sum, diff), Rows(e, Stretch(sign, sum), Stretch(sign, diff)))
  {
    RowsStretch(e, sum, diff, sign);
    QuarterRows(sum, diff, r);
    var (x, y) := Unscaled(e, z, sum, diff);
    StretchProduct(sign, r, x);
    StretchProduct(sign, r, y);
    hide Stretch, Rows;
    k := if z == PI_1_2 || z == PI_3_2 then sign * r else sign;
  }

  lemma RowsStretch(e: Complex, sum: Complex, diff: Complex, k: real)
    requires k == 1.0 || k == -1.0
    ensures IsStretched(k, Rows(e, sum, diff), Rows(e, Stretch(k, sum), Stretch(k, diff)))
  {
    if k == -1.0 {
      StretchBack(sum);
      StretchBack(diff);
      StretchBack(Rows(e, sum, diff).0);
      StretchBack(Rows(e, sum, diff).1);
      NegatedRow(e.re, sum.re);
      NegatedRow(e.re, sum.im);
      NegatedRow(e.im, diff.re);
      NegatedRow(e.im, diff.im);
      hide Stretch;
    }
  }

  lemma QuarterRows(sum: Complex, diff: Complex, r: real)
    ensures IsStretched(r, (Complex(sum.im, diff.im), Complex(sum.re, diff.re)), Rows(Complex(r, r), sum, diff))
    ensures IsStretched(r, (Complex(-sum.im, diff.im), Complex(-sum.re, diff.re)), Rows(Complex(-r, r), sum, diff))
  {
    NegatedRow(r, sum.re);
    NegatedRow(r, sum.im);
  }

  lemma StretchProduct(k: real, r: real, x: Complex)
    requires k == 1.0 || k == -1.0
    ensures Stretch(k, Stretch(r, x)) == Stretch(k * r, x)
  {
  }

  // When the angles are exact

  /** The entries of a rotation: together of weight one. */
  predicate IsWhole(x: Complex, y: Complex) {
    x.re * x.re + x.im * x.im + (y.re * y.re + y.im * y.im) == 1.0
  }

  lemma StretchIsScale(k: real, x: Complex, y: Complex)
    ensures Stretch(k, x) == Mul(Complex(k, 0.0), x)
    ensures Special(Stretch(k, x), Stretch(k, y)) == ScaleMat(Complex(k, 0.0), Special(x, y))
  {
    RealTimes(k, x);
    RealTimes(k, y);
    RealTimes(k, Conj(y));
    RealTimes(k, Minus(Conj(x)));
    NegatedRow(k, x.im);
    NegatedRow(k, x.re);
    NegatedRow(k, y.im);
    hide Mul;
  }

  /** Stretching a rotation by any factor leaves no rotation, unless it is a sign. */
  lemma WholeStretch(k: real, x: Complex, y: Complex)
    requires IsWhole(x, y) && IsWhole(Stretch(k, x), Stretch(k, y))
    ensures k * k == 1.0
  {
    var a, b, c, d := x.re * x.re, x.im * x.im, y.re * y.re, y.im * y.im;
    SquareStretch(k, x.re);
    SquareStretch(k, x.im);
    SquareStretch(k, y.re);
    SquareStretch(k, y.im);
    assert k * k * (a + b + (c + d)) == k * k * a + k * k * b + (k * k * c + k * k * d);
  }

  lemma SquareStretch(k: real, r: real)
    ensures (k * r) * (k * r) == k * k * (r * r)
  {
  }

  /** Two rotations that differ by a phase differ by a sign. */
  lemma SpecialPhase(w: Complex, x: Complex, y: Complex, x': Complex, y': Complex)
    requires IsUnit(w) && IsWhole(x, y) && Special(x', y') == ScaleMat(w, Special(x, y))
    ensures w.re != 0.0 && x' == Stretch(w.re, x) && y' == Stretch(w.re, y)
  {
    NothingIsWhole(w);
    hide Mul, Conj, Minus, IsWhole, IsUnit;
    ConjPhase(w, y, y');
    MinusPhase(w, x, x');
    assert w.im == 0.0;
    RealTimes(w.re, x);
    RealTimes(w.re, y);
    hide *;
    assert x' == Mul(w, x) && y' == Mul(w, y);
  }

  lemma NothingIsWhole(w: Complex)
    ensures !IsWhole(ZERO, ZERO) && (IsUnit(w) && w.im == 0.0 ==> w.re != 0.0)
  {
    assert w.im == 0.0 && w.re == 0.0 ==> w.re * w.re + w.im * w.im == 0.0;
  }

  /** A factor that scales a number and its conjugate alike is real. */
  lemma ConjPhase(w: Complex, y: Complex, y': Complex)
    requires Mul(w, y) == y' && Mul(w, Conj(y)) == Conj(y')
    ensures w.im != 0.0 ==> y == ZERO
  {
    assert w.re * y.re - w.im * y.im == w.re * y.re + w.im * y.im;
    assert w.re * y.im + w.im * y.re == w.re * y.im - w.im * y.re;
    assert w.im * y.im == 0.0 && w.im * y.re == 0.0;
  }

  lemma MinusPhase(w: Complex, x: Complex, x': Complex)
    requires Mul(w, x) == x' && Mul(w, Minus(Conj(x))) == Minus(Conj(x'))
    ensures w.im != 0.0 ==> x == ZERO
  {
    MinusMul(w, Conj(x));
    MinusCancels(Mul(w, Conj(x)), Conj(x'));
    hide Mul, Minus;
    ConjPhase(w, x, x');
  }

  ghost predicate Proportional(m: (Complex, Complex), n: (Complex, Complex)) {
    exists k: real :: k != 0.0 && IsStretched(k, m, n)
  }

  /** Two rotations, each up to a phase, are alike if and only if their second rows are proportional. */
  lemma SpecialIff(u: Complex, v: Complex, m: (Complex, Complex), n: (Complex, Complex))
    requires IsUnit(u) && IsUnit(v) && IsWhole(m.0, m.1) && IsWhole(n.0, n.1)
    ensures Alike(ScaleMat(u, Special(m.0, m.1)), ScaleMat(v, Special(n.0, n.1))) <==> Proportional(m, n)
  {
    var x, y := Special(m.0, m.1), Special(n.0, n.1);
    var p, q := ScaleMat(u, x), ScaleMat(v, y);
    if Alike(p, q) {
      var g :| IsUnit(g) && q == ScaleMat(g, p);
      SpecialOnly(u, v, m, n, g);
    }
    if Proportional(m, n) {
      var k: real :| k != 0.0 && IsStretched(k, m, n);
      WholeStretch(k, m.0, m.1);
      StretchIsScale(k, m.0, m.1);
      assert 0.0 * 0.0 == 0.0 && IsUnit(Complex(k, 0.0));
      hide *;
      AlikePhase(u, x);
      AlikePhase(v, y);
      AlikeSym(x, p);
      AlikeBy(x, y, Complex(k, 0.0));
      AlikeTrans(p, x, y);
      AlikeTrans(p, y, q);
    }
  }

  lemma AlikePhase(u: Complex, m: Mat)
    requires IsUnit(u)
    ensures Alike(m, ScaleMat(u, m))
  {
  }

  lemma SpecialOnly(u: Complex, v: Complex, m: (Complex, Complex), n: (Complex, Complex), g: Complex)
    requires IsUnit(u) && IsUnit(v) && IsUnit(g) && IsWhole(m.0, m.1)
    requires ScaleMat(v, Special(n.0, n.1)) == ScaleMat(g, ScaleMat(u, Special(m.0, m.1)))
    ensures Proportional(m, n)
  {
    var x, y := Special(m.0, m.1), Special(n.0, n.1);
    var w := Mul(Conj(v), Mul(g, u));
    hide IsUnit, ScaleMat, Special, Mul, IsWhole, Conj, IsStretched;
    UnitInverse(v);
    UnitMul(g, u);
    UnitMul(Conj(v), Mul(g, u));
    ScaleTwice(u, g, x);
    ScaleTwice(Mul(g, u), Conj(v), x);
    ScaleTwice(v, Conj(v), y);
    assert y == ScaleMat(w, x);
    SpecialPhase(w, m.0, m.1, n.0, n.1);
    StretchedBy(w.re, m, n);
  }

  lemma StretchedBy(k: real, m: (Complex, Complex), n: (Complex, Complex))
    requires k != 0.0 && n.0 == Stretch(k, m.0) && n.1 == Stretch(k, m.1)
    ensures Proportional(m, n)
  {
    assert IsStretched(k, m, n);
  }

  lemma WholeRows(e: Complex, sum: Complex, diff: Complex)
    requires IsUnit(e) && IsUnit(sum) && IsUnit(diff)
    ensures var (x, y) := Rows(e, sum, diff); IsWhole(x, y)
  {
    SquareStretch(e.re, sum.im);
    SquareStretch(e.re, sum.re);
    SquareStretch(e.im, diff.im);
    SquareStretch(e.im, diff.re);
    var p, q := e.re * e.re, e.im * e.im;
    assert p * (sum.im * sum.im) + p * (sum.re * sum.re) == p * (sum.re * sum.re + sum.im * sum.im);
    assert q * (diff.im * diff.im) + q * (diff.re * diff.re) == q * (diff.re * diff.re + diff.im * diff.im);
  }

  /** The angles that the code takes for the two entries, as the entries that they stand for. */
  function PolarRow(h: Circle, theta: int, alpha: int, beta: int): (Complex, Complex) {
    (Mul(Phase(h, alpha), SinHalf(h, theta)), Mul(Phase(h, beta), CosHalf(h, theta)))
  }

  lemma WholePolar(h: Circle, theta: int, alpha: int, beta: int)
    requires IsCircle(h)
    ensures var (x, y) := PolarRow(h, theta, alpha, beta); IsWhole(x, y)
  {
    PhaseAdds(h, alpha, 0);
    PhaseAdds(h, beta, 0);
    RealHalves(h, theta);
    CircleAdd(h, theta, 0);
    hide IsCircle, SinHalf, CosHalf, Phase, Mul, IsUnit, IsWhole;
    TurnedWhole(Phase(h, alpha), Phase(h, beta), h(theta));
  }

  lemma TurnedWhole(p: Complex, q: Complex, t: Complex)
    requires IsUnit(p) && IsUnit(q) && IsUnit(t)
    ensures IsWhole(Mul(p, Complex(t.im, 0.0)), Mul(q, Complex(t.re, 0.0)))
  {
    TurnedWeight(p, t.im);
    TurnedWeight(q, t.re);
    hide Mul;
  }

  lemma TurnedWeight(p: Complex, r: real)
    requires IsUnit(p)
    ensures var x := Mul(p, Complex(r, 0.0)); x.re * x.re + x.im * x.im == r * r
  {
    MulCommutes(p, Complex(r, 0.0));
    RealTimes(r, p);
    SquareStretch(r, p.re);
    SquareStretch(r, p.im);
    assert r * r * (p.re * p.re) + r * r * (p.im * p.im) == r * r * (p.re * p.re + p.im * p.im);
  }

  lemma EulerRow(h: Circle, theta: int, alpha: int, beta: int)
    requires IsCircle(h)
    ensures var (x, y) := PolarRow(h, theta, alpha, beta);
      Euler(h, theta, beta + alpha, beta - alpha) == ScaleMat(Phase(h, beta), Special(x, y))
  {
    PhaseAdds(h, beta, alpha);
    PhaseAdds(h, beta, -alpha);
    PhaseAdds(h, beta, beta);
    RealHalves(h, theta);
    PhaseConj(h, alpha);
    assert beta + alpha + (beta - alpha) == beta + beta && beta + -alpha == beta - alpha;
    hide IsCircle, SinHalf, CosHalf, Phase, Mul, Minus, Conj;
    RowTurned(Phase(h, beta), Phase(h, alpha), h(theta).im, h(theta).re);
  }

  lemma PhaseConj(h: Circle, a: int)
    requires IsCircle(h)
    ensures Phase(h, -a) == Conj(Phase(h, a))
  {
    CircleConj(h, 2 * a);
    assert 2 * -a == -(2 * a);
    hide IsCircle;
  }

  lemma RowTurned(q: Complex, p: Complex, s: real, c: real)
    requires IsUnit(q)
    ensures var x, y := Mul(p, Complex(s, 0.0)), Mul(q, Complex(c, 0.0));
      && Mul(q, Conj(y)) == Complex(c, 0.0) && Mul(q, y) == Mul(Mul(q, q), Complex(c, 0.0))
      && Mul(q, x) == Mul(Mul(q, p), Complex(s, 0.0))
      && Mul(q, Minus(Conj(x))) == Minus(Mul(Mul(q, Conj(p)), Complex(s, 0.0)))
  {
    ConjStretch(p, s);
    ConjStretch(q, c);
    UnitInverse(q);
    Units(Complex(c, 0.0));
    MulAssoc(q, Conj(q), Complex(c, 0.0));
    MulAssoc(q, q, Complex(c, 0.0));
    MulAssoc(q, p, Complex(s, 0.0));
    MulAssoc(q, Conj(p), Complex(s, 0.0));
    MinusMul(q, Mul(Conj(p), Complex(s, 0.0)));
    hide Mul, Conj, Minus, IsUnit;
  }

  lemma ConjStretch(p: Complex, s: real)
    ensures Conj(Mul(p, Complex(s, 0.0))) == Mul(Conj(p), Complex(s, 0.0))
  {
    MulCommutes(p, Complex(s, 0.0));
    MulCommutes(Conj(p), Complex(s, 0.0));
    RealTimes(s, p);
    RealTimes(s, Conj(p));
    NegatedRow(s, p.im);
    hide Mul;
  }

  /** The path gives the product if and only if the entries that its angles stand for are those that it has computed, up
      to one real factor. */
  lemma NumericIff(h: Circle, t1: Angle, z: Angle, t2: Angle, theta: Angle, alpha: Angle, beta: Angle)
    requires IsCircle(h) && t2 != PI
    ensures Alike(Yzy(h, t1, z, t2), Matrix(h, U.New(theta, Wrap(beta + alpha), Wrap(beta - alpha)))) <==>
      Proportional(Entries(h, t1, z, t2), PolarRow(h, theta, alpha, beta))
  {
    var m, n := Rows(h(z), h(t1 + t2), h(t1 - t2)), PolarRow(h, theta, alpha, beta);
    hide *;
    RowsIff(h, t1, z, t2, theta, alpha, beta);
    MadeAlike(h, Yzy(h, t1, z, t2), theta, beta + alpha, beta - alpha);
    var k := EntriesScale(h, t1, z, t2);
    ScaledProportional(k, Entries(h, t1, z, t2), m, n);
  }

  lemma RowsIff(h: Circle, t1: int, z: int, t2: int, theta: int, alpha: int, beta: int)
    requires IsCircle(h)
    ensures Alike(Yzy(h, t1, z, t2), Euler(h, theta, beta + alpha, beta - alpha)) <==>
      Proportional(Rows(h(z), h(t1 + t2), h(t1 - t2)), PolarRow(h, theta, alpha, beta))
  {
    var m, n := Rows(h(z), h(t1 + t2), h(t1 - t2)), PolarRow(h, theta, alpha, beta);
    hide *;
    CircleAdd(h, z, 0);
    CircleAdd(h, t1 + t2, 0);
    CircleAdd(h, t1 - t2, 0);
    PhaseAdds(h, beta, 0);
    WholeRows(h(z), h(t1 + t2), h(t1 - t2));
    WholePolar(h, theta, alpha, beta);
    YzyRows(h, t1, z, t2);
    EulerRow(h, theta, alpha, beta);
    SpecialIff(h(z), Phase(h, beta), m, n);
  }

  lemma MadeAlike(h: Circle, m: Mat, theta: Angle, phi: int, lam: int)
    requires IsCircle(h)
    ensures Alike(m, Euler(h, theta, phi, lam)) <==> Alike(m, Matrix(h, U.New(theta, Wrap(phi), Wrap(lam))))
  {
    var e, g := Euler(h, theta, phi, lam), Matrix(h, U.New(theta, Wrap(phi), Wrap(lam)));
    WrapSmall(theta);
    hide *;
    EulerWraps(h, theta, phi, lam);
    NewAlike(h, theta, Wrap(phi), Wrap(lam));
    AlikeTrans(e, Euler(h, theta, Wrap(phi), Wrap(lam)), g);
    AlikeIff(m, e, g);
  }

  lemma WrapSmall(a: Angle)
    ensures Wrap(a) == a
  {
  }

  lemma AlikeIff(m: Mat, e: Mat, g: Mat)
    requires Alike(e, g)
    ensures Alike(m, e) <==> Alike(m, g)
  {
    hide *;
    AlikeSym(e, g);
    if Alike(m, e) {
      AlikeTrans(m, e, g);
    }
    if Alike(m, g) {
      AlikeTrans(m, g, e);
    }
  }

  lemma ScaledProportional(k: real, m: (Complex, Complex), n: (Complex, Complex), p: (Complex, Complex))
    requires k != 0.0 && IsStretched(k, m, n)
    ensures Proportional(n, p) <==> Proportional(m, p)
  {
    if Proportional(n, p) {
      var j: real :| j != 0.0 && IsStretched(j, n, p);
      StretchBoth(j, k, m.0);
      StretchBoth(j, k, m.1);
      NotZero(j, k);
      hide Stretch;
      StretchedBy(j * k, m, p);
    }
    if Proportional(m, p) {
      var j: real :| j != 0.0 && IsStretched(j, m, p);
      var i := j / k;
      assert i * k == j;
      StretchBoth(i, k, m.0);
      StretchBoth(i, k, m.1);
      hide Stretch;
      StretchedBy(i, n, p);
    }
  }

  lemma StretchBoth(j: real, k: real, x: Complex)
    ensures Stretch(j, Stretch(k, x)) == Stretch(j * k, x)
  {
  }

  lemma NotZero(j: real, k: real)
    requires j != 0.0 && k != 0.0
    ensures j * k != 0.0
  {
  }

  /** The whole path, for any function that takes angles for the two entries. */
  function FromPolar(h: Circle, polar: (Complex, Complex) -> (Angle, Angle, Angle)): U.Numeric {
    (ry1: Angle, rz: Angle, ry2: Angle) =>
      var (m10, m11) := Entries(h, ry1, rz, ry2);
      var (theta, alpha, beta) := polar(m10, m11);
      U.New(theta, Wrap(beta + alpha), Wrap(beta - alpha))
  }

  lemma PolarIsExactIff(h: Circle, polar: (Complex, Complex) -> (Angle, Angle, Angle), t1: Angle, z: Angle, t2: Angle)
    requires IsCircle(h) && U.IsNumeric(t1, z, t2)
    ensures var (m10, m11) := Entries(h, t1, z, t2); var (theta, alpha, beta) := polar(m10, m11);
      IsExact(h, FromPolar(h, polar), t1, z, t2) <==> Proportional((m10, m11), PolarRow(h, theta, alpha, beta))
  {
    var (m10, m11) := Entries(h, t1, z, t2);
    var (theta, alpha, beta) := polar(m10, m11);
    NumericIff(h, t1, z, t2, theta, alpha, beta);
    hide IsCircle, Alike, Yzy, Matrix, U.New, Proportional, PolarRow, Entries, Wrap;
  }
}
