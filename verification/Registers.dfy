/** Qubit registers read as binary numbers, least significant qubit first. */
module Registers {
  import opened Angles
  import opened Controls

  type Register = seq<Qubit>

  /** The number a register holds in a basis state. */
  function Val(b: Bits, q: Register): nat {
    if q == [] then 0
    else Val(b, q[..|q| - 1]) + if q[|q| - 1] in b then Pow2(|q| - 1) else 0
  }

  /** Bit `i` of a number, `a & (1 << i)` in the circuits. */
  predicate Bit(a: nat, i: nat) {
    (a / Pow2(i)) % 2 == 1
  }

  /** `a >> i`. */
  function Shr(a: nat, i: nat): nat {
    DivPositive(a, Pow2(i));
    a / Pow2(i)
  }

  lemma DivPositive(a: nat, p: nat)
    requires p > 0
    ensures a / p >= 0
  {
  }

  /** The low `n` bits of a number. */
  function Wrapped(x: nat, n: nat): nat {
    x % Pow2(n)
  }

  /** Bitwise exclusive or. */
  function Xor(x: nat, y: nat): nat {
    if x == 0 && y == 0 then 0
    else (if x % 2 != y % 2 then 1 else 0) + 2 * Xor(x / 2, y / 2)
  }

  predicate Distinct(q: Register) {
    forall i, j :: 0 <= i < j < |q| ==> q[i] != q[j]
  }

  predicate Disjoint(q: Register, r: Register) {
    forall i, j :: 0 <= i < |q| && 0 <= j < |r| ==> q[i] != r[j]
  }

  /** The states agree on every qubit that is not in the register. */
  ghost predicate SameExcept(b: Bits, c: Bits, q: Register) {
    forall x :: x !in q ==> (x in b <==> x in c)
  }

  lemma BitZero(a: nat)
    ensures Bit(a, 0) <==> a % 2 == 1
  {
    assert Pow2(0) == 1;
  }

  lemma BitSucc(a: nat, i: nat)
    ensures Bit(a, i + 1) <==> Bit(a / 2, i)
  {
    assert a / Pow2(i + 1) == a / 2 / Pow2(i) by {
      DivTwice(a, 2, Pow2(i));
    }
  }

  lemma DivTwice(a: nat, c: nat, d: nat)
    requires c > 0 && d > 0
    ensures c * d > 0 && a / (c * d) == a / c / d
  {
    var q, r := a / (c * d), a % (c * d);
    assert a == c * (d * q) + r;
    assert a / c == d * q + r / c by {
      DivUnique(a, c, d * q + r / c, r % c);
    }
    assert r / c < d by {
      if r / c >= d {
        MulLe(c, d, r / c);
      }
    }
    DivUnique(a / c, d, q, r / c);
  }

  lemma MulLe(c: nat, x: nat, y: nat)
    requires x <= y
    ensures c * x <= c * y
  {
  }

  /** Quotient and remainder are determined by their defining equation. */
  lemma DivUnique(a: int, d: int, q: int, r: int)
    requires d > 0 && a == d * q + r && 0 <= r < d
    ensures a / d == q && a % d == r
  {
    var k := a / d - q;
    assert a == d * (a / d) + a % d;
    assert d * k == r - a % d by {
      assert d * k == d * (a / d) - d * q;
    }
    if k >= 1 {
      MulLe(d, 1, k);
    }
  }

  /** The low `i` bits and bit `i` make the low `i + 1` bits. */
  lemma LowBits(a: nat, i: nat)
    ensures a % Pow2(i + 1) == a % Pow2(i) + if Bit(a, i) then Pow2(i) else 0
  {
    var p := Pow2(i);
    var h := a / p;
    assert a == p * h + a % p;
    assert h == 2 * (h / 2) + h % 2;
    assert p * h == Pow2(i + 1) * (h / 2) + p * (h % 2) by {
      assert p * (2 * (h / 2) + h % 2) == 2 * p * (h / 2) + p * (h % 2);
    }
    DivUnique(a, Pow2(i + 1), h / 2, p * (h % 2) + a % p);
  }

  lemma {:induction false} ValBelow(b: Bits, q: Register)
    ensures Val(b, q) < Pow2(|q|)
    decreases |q|
  {
    if q != [] {
      ValBelow(b, q[..|q| - 1]);
    }
  }

  lemma ValSnoc(b: Bits, q: Register, x: Qubit)
    ensures Val(b, q + [x]) == Val(b, q) + if x in b then Pow2(|q|) else 0
  {
    assert (q + [x])[..|q|] == q;
  }

  /** A register with the bits of `a` holds the low bits of `a`. */
  lemma {:induction false} ValOfBits(b: Bits, q: Register, a: nat)
    requires forall i :: 0 <= i < |q| ==> (q[i] in b <==> Bit(a, i))
    ensures Val(b, q) == a % Pow2(|q|)
    decreases |q|
  {
    if q != [] {
      ValOfBits(b, q[..|q| - 1], a);
      LowBits(a, |q| - 1);
    }
  }

  /** The bits of a register are the bits of its number. */
  lemma {:induction false} BitsOfVal(b: Bits, q: Register, i: nat)
    requires i < |q|
    ensures q[i] in b <==> Bit(Val(b, q), i)
    ensures Val(b, q) % Pow2(i) == Val(b, q[..i])
    decreases |q|
  {
    var n := |q| - 1;
    ValBelow(b, q[..n]);
    var v, p := Val(b, q[..n]), Pow2(n);
    var d := if q[n] in b then 1 else 0;
    assert Val(b, q) == p * d + v;
    if i == n {
      DivUnique(Val(b, q), p, d, v);
    } else {
      BitsOfVal(b, q[..n], i);
      assert q[..n][..i] == q[..i];
      HighBitIrrelevant(v, d, i, n);
    }
  }

  /** Adding a multiple of a higher power of two does not change the bits below it. */
  lemma HighBitIrrelevant(v: nat, d: nat, i: nat, n: nat)
    requires i < n
    ensures Bit(Pow2(n) * d + v, i) <==> Bit(v, i)
    ensures (Pow2(n) * d + v) % Pow2(i) == v % Pow2(i)
  {
    var e := HigherMultiple(d, i, n);
    AboveBit(Pow2(i), e, v);
  }

  lemma AboveBit(p: nat, e: nat, v: nat)
    requires p > 0
    ensures ((p * (2 * e) + v) / p) % 2 == (v / p) % 2
    ensures (p * (2 * e) + v) % p == v % p
  {
    var h, r := v / p, v % p;
    SumOfMultiples(p, 2 * e, h);
    DivUnique(p * (2 * e) + v, p, 2 * e + h, r);
  }

  lemma SumOfMultiples(p: int, x: int, y: int)
    ensures p * x + p * y == p * (x + y)
  {
  }

  lemma HigherMultiple(d: nat, i: nat, n: nat) returns (e: nat)
    requires i < n
    ensures Pow2(n) * d == Pow2(i) * (2 * e)
  {
    Pow2Add(i + 1, n - i - 1);
    e := Pow2(n - i - 1) * d;
    Associate(2 * Pow2(i), Pow2(n - i - 1), d);
    Associate(Pow2(i), 2, e);
  }

  lemma Associate(x: int, y: int, z: int)
    ensures x * y * z == x * (y * z)
  {
  }

  lemma {:induction false} Pow2Add(i: nat, j: nat)
    ensures Pow2(i + j) == Pow2(i) * Pow2(j)
    decreases i
  {
    if i > 0 {
      Pow2Add(i - 1, j);
    }
  }

  /** A register's qubits are determined by its number. */
  lemma ValInjective(b: Bits, c: Bits, q: Register)
    requires Val(b, q) == Val(c, q)
    ensures forall i :: 0 <= i < |q| ==> (q[i] in b <==> q[i] in c)
  {
    forall i | 0 <= i < |q| ensures q[i] in b <==> q[i] in c {
      BitsOfVal(b, q, i);
      BitsOfVal(c, q, i);
    }
  }

  /** States that agree off the register and on its number are equal. */
  lemma SameState(b: Bits, c: Bits, q: Register)
    requires SameExcept(b, c, q) && Val(b, q) == Val(c, q)
    ensures b == c
  {
    ValInjective(b, c, q);
    forall x ensures x in b <==> x in c {
      if x in q {
        var i :| 0 <= i < |q| && q[i] == x;
      }
    }
  }

  /** The number depends on the qubits of the register only. */
  lemma {:induction false} ValFrame(b: Bits, c: Bits, q: Register)
    requires forall i :: 0 <= i < |q| ==> (q[i] in b <==> q[i] in c)
    ensures Val(b, q) == Val(c, q)
    decreases |q|
  {
    if q != [] {
      ValFrame(b, c, q[..|q| - 1]);
    }
  }

  lemma {:induction false} XorBit(x: nat, y: nat, i: nat)
    ensures Bit(Xor(x, y), i) <==> Bit(x, i) != Bit(y, i)
    decreases i
  {
    hide Bit;
    var z := Xor(x, y);
    assert z % 2 == (if x % 2 != y % 2 then 1 else 0) && z / 2 == Xor(x / 2, y / 2);
    if i == 0 {
      BitZero(x);
      BitZero(y);
      BitZero(z);
    } else {
      XorBit(x / 2, y / 2, i - 1);
      BitSucc(x, i - 1);
      BitSucc(y, i - 1);
      BitSucc(z, i - 1);
    }
  }

  lemma {:induction false} XorBelow(x: nat, y: nat, n: nat)
    requires x < Pow2(n) && y < Pow2(n)
    ensures Xor(x, y) < Pow2(n)
    decreases n
  {
    if n > 0 {
      XorBelow(x / 2, y / 2, n - 1);
    }
  }

  /** Xor with the same number twice gives back the other. */
  lemma {:induction false} XorTwice(x: nat, y: nat)
    ensures Xor(Xor(x, y), y) == x
    decreases x + y
  {
    if x != 0 || y != 0 {
      XorTwice(x / 2, y / 2);
      var z := Xor(x, y);
      assert z % 2 == (if x % 2 != y % 2 then 1 else 0) && z / 2 == Xor(x / 2, y / 2);
    }
  }

  lemma {:induction false} BitBelow(a: nat, i: nat)
    requires a < Pow2(i)
    ensures !Bit(a, i)
  {
    DivUnique(a, Pow2(i), 0, a);
  }
}
