/** The integer facts behind the modular circuits. */
module ModularArithmetic {
  import opened Registers

  /** Numbers that differ by a multiple of the modulus have the same remainder. */
  lemma ModShift(x: int, y: int, k: int, m: nat)
    requires m > 0 && x == y + m * k
    ensures x % m == y % m
  {
    DivUniqueInt(y, m);
    SumOfMultiples(m, y / m, k);
    DivUnique(x, m, y / m + k, y % m);
  }

  lemma DivUniqueInt(y: int, m: int)
    requires m > 0
    ensures y == m * (y / m) + y % m && 0 <= y % m < m
  {
  }

  /** Adding remainders is adding. */
  lemma ModAddMod(v: nat, w: nat, m: nat)
    requires m > 0
    ensures (v % m + w % m) % m == (v + w) % m
  {
    DivUniqueInt(v, m);
    DivUniqueInt(w, m);
    SumOfMultiples(m, v / m, w / m);
    ModShift(v + w, v % m + w % m, v / m + w / m, m);
  }

  lemma ModModMul(v: nat, x: nat, y: nat, m: nat)
    requires m > 0
    ensures (v + x * (y % m)) % m == (v + x * y) % m
  {
    DivUniqueInt(y, m);
    Distribute(x, m, y / m, y % m);
    ModShift(v + x * y, v + x * (y % m), x * (y / m), m);
  }

  lemma Distribute(x: int, m: int, d: int, r: int)
    ensures x * (m * d + r) == m * (x * d) + x * r
  {
  }

  function Negated(x: int): int {
    -x
  }

  /** `x` is what `pow(-a, -1, m)` returns. */
  predicate IsNegInverse(a: nat, x: nat, m: nat)
    requires m > 0
  {
    x < m && Negated(a * x) % m == 1 % m
  }

  lemma NegInverseWitness(a: int, x: int, m: int) returns (k: int)
    requires m > 0 && Negated(a * x) % m == 1 % m
    ensures a * x + 1 == m * k
  {
    var z := Negated(a * x);
    DivUniqueInt(z, m);
    DivUniqueInt(1, m);
    k := 1 / m - z / m;
    SumOfMultiples(m, 1 / m, Negated(z / m));
  }

  lemma NegInverseFrom(a: int, x: int, m: int, k: int)
    requires m > 0 && a * x + 1 == m * k
    ensures Negated(a * x) % m == 1 % m
  {
    ModShift(1, Negated(a * x), k, m);
  }

  predicate Divides(d: nat, a: int)
    requires d > 0
  {
    a % d == 0
  }

  ghost predicate Coprime(a: nat, m: nat) {
    forall d: nat :: d > 1 && Divides(d, a) ==> !Divides(d, m)
  }

  /** Multiplying by a and then by the inverse of -a cancels: the accumulator returns to zero. */
  lemma NegInverseCancels(v: nat, a: nat, x: nat, m: nat)
    requires m > 0 && IsNegInverse(a, x, m)
    ensures (v + x * (a * v % m)) % m == 0
  {
    ModModMul(v, x, a * v, m);
    var k := NegInverseWitness(a, x, m);
    Rearrange(x, a, v, m, k);
    ModShift(v + x * (a * v), 0, k * v, m);
  }

  lemma Rearrange(x: int, a: int, v: int, m: int, k: int)
    requires a * x + 1 == m * k
    ensures v + x * (a * v) == m * (k * v)
  {
    Associate(x, a, v);
    Associate(m, k, v);
    assert x * a * v + v == (a * x + 1) * v;
  }

  lemma DividesSum(d: nat, a: int, b: int, x: int, y: int)
    requires d > 0 && Divides(d, a) && Divides(d, b)
    ensures Divides(d, a * x + b * y)
  {
    DivUniqueInt(a, d);
    DivUniqueInt(b, d);
    Associate(d, a / d, x);
    Associate(d, b / d, y);
    SumOfMultiples(d, a / d * x, b / d * y);
    ModShift(a * x + b * y, 0, a / d * x + b / d * y, d);
  }

  /** Euclid's algorithm with its Bezout coefficients. */
  lemma {:induction false} Bezout(a: nat, m: nat) returns (g: nat, x: int, y: int)
    requires m > 0
    ensures g > 0 && Divides(g, a) && Divides(g, m) && a * x + m * y == g
    decreases m
  {
    var r := a % m;
    DivUniqueInt(a, m);
    if r == 0 {
      g, x, y := m, 0, 1;
    } else {
      var x', y';
      g, x', y' := Bezout(m, r);
      DividesSum(g, m, r, a / m, 1);
      x, y := y', x' - a / m * y';
      Euclid(a, m, r, a / m, x', y');
    }
  }

  lemma Euclid(a: int, m: int, r: int, d: int, x: int, y: int)
    requires a == m * d + r
    ensures a * y + m * (x - d * y) == m * x + r * y
  {
    assert a * y == m * (d * y) + r * y by {
      Associate(m, d, y);
    }
    SumOfMultiples(m, x, -(d * y));
  }

  /** The inverse that the multiplier needs exists exactly for numbers coprime to the modulus. */
  lemma NegInverseIffCoprime(a: nat, m: nat)
    requires m > 0
    ensures (exists x: nat :: IsNegInverse(a, x, m)) <==> Coprime(a, m)
  {
    if Coprime(a, m) {
      var g, x, y := Bezout(a, m);
      assert g == 1;
      var z := Negated(x) % m;
      DivUniqueInt(Negated(x), m);
      CoefficientStep(a, m, x, y, z, Negated(x) / m);
      NegInverseFrom(a, z, m, y - a * (Negated(x) / m));
      assert IsNegInverse(a, z, m);
    }
    if x: nat :| IsNegInverse(a, x, m) {
      var k := NegInverseWitness(a, x, m);
      forall d: nat | d > 1 && Divides(d, a) ensures !Divides(d, m) {
        if Divides(d, m) {
          DividesSum(d, a, m, Negated(x), k);
          DividesOne(a, x, m, k, d);
        }
      }
    }
  }

  lemma DividesOne(a: int, x: int, m: int, k: int, d: nat)
    requires d > 1 && a * x + 1 == m * k
    ensures !Divides(d, a * Negated(x) + m * k)
  {
    assert a * Negated(x) == Negated(a * x);
    DivUnique(1, d, 0, 1);
  }

  lemma CoefficientStep(a: int, m: int, x: int, y: int, z: int, d: int)
    requires Negated(x) == m * d + z && a * x + m * y == 1
    ensures a * z + 1 == m * (y - a * d)
  {
    Distribute(a, m, d, z);
    assert a * Negated(x) == Negated(a * x);
    SumOfMultiples(m, y, Negated(a * d));
    assert m * Negated(a * d) == Negated(m * (a * d));
  }
}
