/** Complex amplitudes as pairs of reals (`src/complex.rs`), without rounding. */
module Complexes {

  datatype Complex = Complex(re: real, im: real)

  const ZERO := Complex(0.0, 0.0)
  const ONE := Complex(1.0, 0.0)
  const I := Complex(0.0, 1.0)

  function Add(x: Complex, y: Complex): Complex {
    Complex(x.re + y.re, x.im + y.im)
  }

  function Mul(x: Complex, y: Complex): Complex {
    Complex(x.re * y.re - x.im * y.im, x.re * y.im + x.im * y.re)
  }

  function Minus(x: Complex): Complex {
    Complex(-x.re, -x.im)
  }

  /** The numbers of absolute value one: global phases. */
  predicate IsUnit(x: Complex) {
    x.re * x.re + x.im * x.im == 1.0
  }

  function Conj(x: Complex): Complex {
    Complex(x.re, -x.im)
  }

  /** a x + b y. */
  function Lin(a: Complex, x: Complex, b: Complex, y: Complex): Complex {
    Add(Mul(a, x), Mul(b, y))
  }

  lemma MulCommutes(x: Complex, y: Complex)
    ensures Mul(x, y) == Mul(y, x)
  {
  }

  lemma MulAssoc(x: Complex, y: Complex, z: Complex)
    ensures Mul(Mul(x, y), z) == Mul(x, Mul(y, z))
  {
  }

  lemma AddCommutes(x: Complex, y: Complex)
    ensures Add(x, y) == Add(y, x)
  {
  }

  lemma Distributes(x: Complex, y: Complex, z: Complex)
    ensures Mul(x, Add(y, z)) == Add(Mul(x, y), Mul(x, z))
    ensures Mul(Add(y, z), x) == Add(Mul(y, x), Mul(z, x))
  {
  }

  lemma Units(x: Complex)
    ensures Mul(ONE, x) == x && Mul(x, ONE) == x && Mul(ZERO, x) == ZERO && Mul(x, ZERO) == ZERO
    ensures Add(x, ZERO) == x && Add(ZERO, x) == x && Mul(Minus(ONE), x) == Minus(x) && Add(x, Minus(x)) == ZERO
    ensures Minus(Minus(x)) == x
  {
  }

  lemma MinusMul(x: Complex, y: Complex)
    ensures Mul(Minus(x), y) == Minus(Mul(x, y)) && Mul(x, Minus(y)) == Minus(Mul(x, y))
    ensures Minus(Add(x, y)) == Add(Minus(x), Minus(y))
  {
  }

  lemma UnitMul(x: Complex, y: Complex)
    requires IsUnit(x) && IsUnit(y)
    ensures IsUnit(Mul(x, y))
  {
    assert (x.re * y.re - x.im * y.im) * (x.re * y.re - x.im * y.im) + (x.re * y.im + x.im * y.re) * (x.re * y.im + x.im * y.re)
        == (x.re * x.re + x.im * x.im) * (y.re * y.re + y.im * y.im);
  }

  lemma UnitInverse(x: Complex)
    requires IsUnit(x)
    ensures IsUnit(Conj(x)) && Mul(Conj(x), x) == ONE && Mul(x, Conj(x)) == ONE
  {
  }

  // Linear combinations

  lemma LinScales(g: Complex, a: Complex, x: Complex, b: Complex, y: Complex)
    ensures Mul(g, Lin(a, x, b, y)) == Lin(a, Mul(g, x), b, Mul(g, y))
    ensures Mul(g, Lin(a, x, b, y)) == Lin(Mul(g, a), x, Mul(g, b), y)
  {
    Distributes(g, Mul(a, x), Mul(b, y));
    MulAssoc(g, a, x);
    MulAssoc(g, b, y);
    MulAssoc(a, g, x);
    MulAssoc(b, g, y);
    MulCommutes(g, a);
    MulCommutes(g, b);
    hide Mul, Add;
  }

  /** Two linear combinations along different directions can be taken in either order. */
  lemma LinExchange(a: Complex, b: Complex, c: Complex, d: Complex, x: Complex, y: Complex, z: Complex, w: Complex)
    ensures Lin(a, Lin(c, x, d, y), b, Lin(c, z, d, w)) == Lin(c, Lin(a, x, b, z), d, Lin(a, y, b, w))
  {
    LinScales(a, c, x, d, y);
    LinScales(b, c, z, d, w);
    LinScales(c, a, x, b, z);
    LinScales(d, a, y, b, w);
    Swapped(a, c, x);
    Swapped(a, d, y);
    Swapped(b, c, z);
    Swapped(b, d, w);
    hide Mul;
    Exchange(Mul(c, Mul(a, x)), Mul(d, Mul(a, y)), Mul(c, Mul(b, z)), Mul(d, Mul(b, w)));
  }

  lemma Swapped(a: Complex, c: Complex, x: Complex)
    ensures Mul(a, Mul(c, x)) == Mul(c, Mul(a, x))
  {
    MulAssoc(a, c, x);
    MulAssoc(c, a, x);
    MulCommutes(a, c);
    hide Mul;
  }

  lemma Exchange(x: Complex, y: Complex, z: Complex, w: Complex)
    ensures Add(Add(x, y), Add(z, w)) == Add(Add(x, z), Add(y, w))
  {
  }

  /** A linear combination of two combinations of the same values. */
  lemma LinCombines(a: Complex, b: Complex, p: Complex, q: Complex, r: Complex, s: Complex, x: Complex, y: Complex)
    ensures Lin(a, Lin(p, x, q, y), b, Lin(r, x, s, y)) == Lin(Lin(a, p, b, r), x, Lin(a, q, b, s), y)
  {
    LinExchange(a, b, p, q, x, y, x, y);
    LinScales(a, p, x, q, y);
    LinScales(b, r, x, s, y);
    Distributes(x, Mul(a, p), Mul(b, r));
    Distributes(y, Mul(a, q), Mul(b, s));
    hide Mul;
    Exchange(Mul(Mul(a, p), x), Mul(Mul(a, q), y), Mul(Mul(b, r), x), Mul(Mul(b, s), y));
  }
}
