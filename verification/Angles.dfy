/**
 The integer part of `src/angle.rs`: an angle is a 64-bit word, one full turn being 2^64.
 Angles are compared by their circular distance, so that sums need not be reduced.
 */
module Angles {

  const TURN: int := 0x1_0000_0000_0000_0000
  const PI_1_4: Angle := 0x2000_0000_0000_0000
  const PI_1_2: Angle := 0x4000_0000_0000_0000
  const PI_3_4: Angle := 0x6000_0000_0000_0000
  const PI: Angle := 0x8000_0000_0000_0000
  const PI_5_4: Angle := 0xa000_0000_0000_0000
  const PI_3_2: Angle := 0xc000_0000_0000_0000
  const PI_7_4: Angle := 0xe000_0000_0000_0000

  type Angle = a: int | 0 <= a < TURN

  /** The wrapping arithmetic of `Add`, `Sub` and `Neg`: reduce the exact integer result. */
  function Wrap(x: int): Angle {
    x % TURN
  }

  function Neg(a: Angle): Angle {
    var x: int := a;
    Wrap(-x)
  }

  function Pow2(k: nat): (r: nat)
    ensures r > 0
  {
    if k == 0 then 1 else 2 * Pow2(k - 1)
  }

  /** Round to `prec` leading bits, ties to even. */
  function Round(a: Angle, prec: nat): Angle {
    if prec >= 64 then a
    else if prec == 0 then 0
    else
      var next := Pow2(64 - prec);
      var half := Pow2(63 - prec);
      var low := a % next;
      if low > half || (low == half && (a / next) % 2 != 0) then Wrap(a - low + next) else a - low
  }

  /** The word read as a signed 64-bit integer. */
  function Signed(a: Angle): int {
    if a < PI then a else a - TURN
  }

  /** `Angle::mid` as written: the signed half of a - b is added to a. */
  function Mid(a: Angle, b: Angle): Angle {
    var diff := Wrap(a - b);
    Wrap(a + FloorHalf(Signed(diff)) + (if a % 2 == 1 && diff % 2 == 1 then 1 else 0))
  }

  /** Arithmetic shift right by one. */
  function FloorHalf(x: int): (r: int)
    ensures 2 * r <= x < 2 * r + 2
  {
    x / 2
  }

  // Circular distance

  /** The length of the shorter way round the circle. */
  function Circ(d: int): nat {
    var m := d % TURN;
    if m <= TURN - m then m else TURN - m
  }

  /** `a` and `b`, read modulo one turn, are at most `e` apart. */
  predicate Near(a: int, b: int, e: int) {
    Circ(a - b) <= e
  }

  /** The error allowed for one rounding decision at this precision. */
  function Unit(prec: nat): nat {
    if prec >= 64 then 0 else Pow2(64 - prec)
  }

  /** The most one rounding can move an angle. */
  function HalfUnit(prec: nat): (r: nat)
    ensures 2 * r == Unit(prec)
  {
    if prec >= 64 then 0 else Pow2(63 - prec)
  }

  lemma CircBelow(d: int)
    ensures Circ(d) <= (if d < 0 then -d else d)
  {
    if 0 <= d < TURN {
    } else if -TURN < d < 0 {
      assert d % TURN == d + TURN;
    }
  }

  lemma CircSigned(d: int) returns (k: int)
    ensures Circ(d) == d - k * TURN || Circ(d) == k * TURN - d
  {
    k := if d % TURN <= TURN - d % TURN then d / TURN else d / TURN + 1;
  }

  lemma CircShift(d: int, k: int)
    ensures Circ(d - k * TURN) == Circ(d)
  {
    assert (d - k * TURN) % TURN == d % TURN;
  }

  lemma CircAdd(x: int, y: int)
    ensures Circ(x + y) <= Circ(x) + Circ(y)
  {
    var k := CircSigned(x);
    var l := CircSigned(y);
    CircShift(x + y, k + l);
    CircBelow(x + y - (k + l) * TURN);
  }

  lemma CircNeg(x: int)
    ensures Circ(-x) == Circ(x)
  {
    if x % TURN == 0 {
      assert (-x) % TURN == 0;
    } else {
      assert (-x) % TURN == TURN - x % TURN;
    }
  }

  lemma NearAdd(a: int, b: int, e: int, c: int, d: int, f: int)
    requires Near(a, b, e) && Near(c, d, f)
    ensures Near(a + c, b + d, e + f)
  {
    CircAdd(a - b, c - d);
    assert a - b + (c - d) == a + c - (b + d);
  }

  /** Moving the first angle by `d` costs at most |d| on the circle. */
  lemma NearBy(a: int, b: int, e: int, d: int, f: int)
    requires Near(a, b, e) && Circ(d) <= f
    ensures Near(a + d, b, e + f)
  {
    CircAdd(a - b, d);
    assert a - b + d == a + d - b;
  }

  lemma NearWrap(x: int)
    ensures Near(Wrap(x), x, 0) && Near(x, Wrap(x), 0)
  {
    assert (Wrap(x) - x) % TURN == 0;
    assert (x - Wrap(x)) % TURN == 0;
  }

  lemma NearSym(a: int, b: int, e: int)
    requires Near(a, b, e)
    ensures Near(b, a, e)
  {
    CircNeg(a - b);
  }

  /** Distance zero is equality of the wrapped words. */
  lemma NearZeroIsEqual(a: int, b: int)
    ensures Near(a, b, 0) <==> Wrap(a) == Wrap(b)
  {
    if Near(a, b, 0) {
      assert (a - b) % TURN == 0;
      assert a == b + (a - b) / TURN * TURN;
      assert a % TURN == b % TURN;
    }
    if Wrap(a) == Wrap(b) {
      assert (a - b) % TURN == 0;
    }
  }

  lemma Pow2Mono(j: nat, k: nat)
    requires j <= k
    ensures Pow2(j) <= Pow2(k)
  {
    if j < k {
      Pow2Mono(j, k - 1);
    }
  }

  lemma Pow2At64()
    ensures Pow2(64) == TURN
  {
    assert Pow2(8) == 0x100;
    assert Pow2(16) == 0x1_0000;
    assert Pow2(24) == 0x100_0000;
    assert Pow2(32) == 0x1_0000_0000;
    assert Pow2(40) == 0x100_0000_0000;
    assert Pow2(48) == 0x1_0000_0000_0000;
    assert Pow2(56) == 0x100_0000_0000_0000;
  }

  /** A step of `d` moves at most |d| round the circle. */
  lemma StepNear(a: Angle, d: int)
    ensures Circ(Wrap(a + d) - a) <= (if d < 0 then -d else d)
  {
    NearWrap(a + d);
    CircAdd(Wrap(a + d) - (a + d), d);
    CircBelow(d);
    assert Wrap(a + d) - (a + d) + d == Wrap(a + d) - a;
  }

  /** Rounding moves an angle by at most half a unit, at every precision. */
  lemma RoundNear(a: Angle, prec: nat)
    ensures 2 * Circ(Round(a, prec) - a) <= Unit(prec)
  {
    hide Circ, Wrap;
    if prec >= 64 {
      CircBelow(0);
    } else if prec == 0 {
      Pow2At64();
      HalfTurn(Round(a, prec) - a);
    } else {
      var next := Pow2(64 - prec);
      var half := Pow2(63 - prec);
      var low := a % next;
      StepNear(a, next - low);
      assert a - low + next == a + (next - low);
      CircBelow(-low);
    }
  }

  lemma HalfTurn(d: int)
    ensures 2 * Circ(d) <= TURN
  {
  }

  /** The signed reading of a - b is congruent to a - b and as long as the circular distance. */
  lemma SignedIsCirc(a: Angle, b: Angle)
    ensures var s := Signed(Wrap(a - b));
      Near(s, a - b, 0) && Circ(a - b) == (if s < 0 then -s else s)
  {
    var s := Signed(Wrap(a - b));
    assert s == a - b || s == a - b + TURN || s == a - b - TURN;
  }

  /** Congruent to `b + d`, so at most |d| away from `b`. */
  lemma NearMove(r: int, b: int, d: int, e: int)
    requires Near(r, b + d, 0)
    requires -e <= d <= e
    ensures Near(r, b, e)
  {
    CircBelow(d);
    CircAdd(r - (b + d), d);
    assert r - (b + d) + d == r - b;
  }

  lemma NearTrans(a: int, b: int, c: int, e: int, f: int)
    requires Near(a, b, e) && Near(b, c, f)
    ensures Near(a, c, e + f)
  {
    CircAdd(a - b, b - c);
    assert a - b + (b - c) == a - c;
  }

  lemma NearSame(a: int, b: int, c: int, d: int, e: int)
    requires Near(a, b, e) && a - b == c - d
    ensures Near(c, d, e)
  {
  }

  /** How far `Mid` lies from each argument, `s` being the signed difference. */
  lemma MidOffsets(a: Angle, b: Angle) returns (h: int)
    ensures var s := Signed(Wrap(a - b));
      var u := 2 * (if s < 0 then -s else s);
      && Near(Mid(a, b), a + h, 0) && Near(Mid(a, b), b + (s + h), 0)
      && -u <= h <= u && -u <= s + h <= u
  {
    hide Circ;
    var diff := Wrap(a - b);
    var s := Signed(diff);
    h := FloorHalf(s) + if a % 2 == 1 && diff % 2 == 1 then 1 else 0;
    NearWrap(a + h);
    SignedIsCirc(a, b);
    NearSym(s, a - b, 0);
    NearSame(a - b, s, a + h, b + (s + h), 0);
    NearTrans(Mid(a, b), a + h, b + (s + h), 0, 0);
  }

  /** If the difference of two angles rounds to zero, their `Mid` is within one unit of both. */
  lemma MidNear(a: Angle, b: Angle, prec: nat)
    requires Round(Wrap(b - a), prec) == 0
    ensures Near(Mid(a, b), a, Unit(prec)) && Near(Mid(a, b), b, Unit(prec))
  {
    assert 2 * Circ(a - b) <= Unit(prec) by {
      RoundNear(Wrap(b - a), prec);
      CircNeg(Wrap(b - a));
      CircShift(b - a, (b - a) / TURN);
      CircNeg(b - a);
    }
    SignedIsCirc(a, b);
    var h := MidOffsets(a, b);
    NearMove(Mid(a, b), a, h, Unit(prec));
    NearMove(Mid(a, b), b, Signed(Wrap(a - b)) + h, Unit(prec));
  }

  /** `Mid` goes from `a` away from `b` by half of their signed difference, an odd one being rounded either way. */
  lemma MidHalves(a: Angle, b: Angle)
    ensures Near(2 * Mid(a, b), 2 * a + Signed(Wrap(a - b)), 1)
  {
    var diff := Wrap(a - b);
    var h := FloorHalf(Signed(diff)) + if a % 2 == 1 && diff % 2 == 1 then 1 else 0;
    var k := (a + h) / TURN;
    assert Wrap(a + h) == a + h - k * TURN;
    var d := 2 * h - Signed(diff);
    CircBelow(d);
    CircShift(d, 2 * k);
    hide Circ;
    assert 2 * Mid(a, b) - (2 * a + Signed(diff)) == d - 2 * k * TURN;
  }

  // Angles that rounding leaves alone

  /** The distance of neighbouring angles at this precision. */
  function Grid(prec: nat): (g: nat)
    ensures g > 0
  {
    if prec >= 64 then 1 else Pow2(64 - prec)
  }

  predicate OnGrid(x: int, prec: nat) {
    Multiple(x, Grid(prec))
  }

  predicate Multiple(x: int, g: nat)
    requires g > 0
  {
    x % g == 0
  }

  lemma FactorBounds(k: int, g: nat)
    ensures (k >= 1 ==> k * g >= g) && (k <= -1 ==> k * g <= 0 - g)
  {
  }

  lemma TimesIsMultiple(k: int, g: nat)
    requires g > 0
    ensures Multiple(k * g, g)
  {
    var r := k * g % g;
    var d := k * g / g;
    assert k * g == d * g + r;
    assert (k - d) * g == r;
    FactorBounds(k - d, g);
  }

  lemma MultipleIsTimes(x: int, g: nat) returns (k: int)
    requires g > 0 && Multiple(x, g)
    ensures x == k * g
  {
    k := x / g;
  }

  lemma MultipleSum(x: int, y: int, g: nat)
    requires g > 0 && Multiple(x, g) && Multiple(y, g)
    ensures Multiple(x + y, g) && Multiple(x - y, g) && Multiple(-x, g)
  {
    var k := MultipleIsTimes(x, g);
    var l := MultipleIsTimes(y, g);
    TimesIsMultiple(k + l, g);
    TimesIsMultiple(k - l, g);
    TimesIsMultiple(-k, g);
    hide Multiple;
    assert (k + l) * g == x + y && (k - l) * g == x - y && -k * g == -x;
  }

  lemma {:induction false} Pow2Splits(j: nat, k: nat)
    requires j <= k
    ensures Multiple(Pow2(k), Pow2(j))
    decreases k
  {
    if j == k {
      TimesIsMultiple(1, Pow2(k));
    } else {
      Pow2Splits(j, k - 1);
      MultipleSum(Pow2(k - 1), Pow2(k - 1), Pow2(j));
      hide Multiple;
    }
  }

  /** Whole turns are on every grid, half and quarter turns on every grid of at least two bits. */
  lemma TurnsOnGrid(prec: nat)
    ensures OnGrid(TURN, prec) && OnGrid(0, prec)
    ensures prec >= 2 ==> OnGrid(PI, prec) && OnGrid(PI_1_2, prec) && OnGrid(PI_3_2, prec)
  {
    hide Multiple;
    TimesIsMultiple(0, Grid(prec));
    Pow2At64();
    if prec >= 64 {
      TimesIsMultiple(TURN, 1);
      TimesIsMultiple(PI, 1);
      TimesIsMultiple(PI_1_2, 1);
      TimesIsMultiple(PI_3_2, 1);
    } else {
      Pow2Splits(64 - prec, 64);
      if prec >= 2 {
        assert Pow2(64) == 2 * Pow2(63) && Pow2(63) == 2 * Pow2(62);
        Pow2Splits(64 - prec, 62);
        var q: int := PI_1_2;
        MultipleSum(q, q, Grid(prec));
        MultipleSum(q, q + q, Grid(prec));
      }
    }
  }

  lemma GridSum(x: int, y: int, prec: nat)
    requires OnGrid(x, prec) && OnGrid(y, prec)
    ensures OnGrid(x + y, prec) && OnGrid(x - y, prec) && OnGrid(-x, prec)
    ensures OnGrid(Wrap(x), prec) && OnGrid(Wrap(x + y), prec) && OnGrid(Wrap(x - y), prec) && OnGrid(Wrap(-x), prec)
  {
    MultipleSum(x, y, Grid(prec));
    GridWrap(x, prec);
    GridWrap(x + y, prec);
    GridWrap(x - y, prec);
    GridWrap(-x, prec);
  }

  lemma GridWrap(x: int, prec: nat)
    requires OnGrid(x, prec)
    ensures OnGrid(Wrap(x), prec)
  {
    var g := Grid(prec);
    TurnsOnGrid(prec);
    hide Grid;
    var t := MultipleIsTimes(TURN, g);
    var k := x / TURN;
    TimesIsMultiple(k * t, g);
    assert k * t * g == k * TURN by {
      assert k * t * g == k * (t * g);
    }
    MultipleSum(x, k * TURN, g);
    assert Wrap(x) == x - k * TURN;
  }

  lemma GridNeg(a: Angle, prec: nat)
    ensures OnGrid(Neg(a), prec) == OnGrid(a, prec)
  {
    NegNeg(a);
    if OnGrid(a, prec) {
      GridSum(a, a, prec);
    }
    if OnGrid(Neg(a), prec) {
      GridSum(Neg(a), Neg(a), prec);
    }
    hide Wrap, OnGrid;
  }

  lemma NegNeg(a: Angle)
    ensures Neg(Neg(a)) == a
  {
  }

  lemma QuartersOnGrid(a: Angle, prec: nat)
    requires prec >= 2 && a % PI_1_2 == 0
    ensures OnGrid(a, prec)
  {
    var g, q: int := Grid(prec), PI_1_2;
    TurnsOnGrid(prec);
    hide Grid;
    var t := MultipleIsTimes(q, g);
    var k := MultipleIsTimes(a, q);
    TimesIsMultiple(k * t, g);
    assert k * t * g == k * q by {
      assert k * t * g == k * (t * g);
    }
  }

  /** Angles on the grid are not rounded. */
  lemma GridRound(a: Angle, prec: nat)
    requires OnGrid(a, prec)
    ensures Round(a, prec) == a
  {
    if prec == 0 {
      Pow2At64();
    }
  }

  /** Rounding goes down or up to a multiple of the unit, from half-way to an even one. */
  lemma RoundSteps(a: Angle, prec: nat) returns (k: nat, low: nat)
    requires 1 <= prec <= 63
    ensures low < Pow2(64 - prec) && a == k * Pow2(64 - prec) + low
    ensures Round(a, prec) ==
      if low > Pow2(63 - prec) || (low == Pow2(63 - prec) && k % 2 != 0) then Wrap((k + 1) * Pow2(64 - prec))
      else Wrap(k * Pow2(64 - prec))
  {
    var next := Pow2(64 - prec);
    k, low := Quotient(a, next);
    RoundIs(a, prec, next, Pow2(63 - prec), k, low);
    NextTimes(k, next);
    SmallWrap(a - low);
    hide *;
    var t := k * next;
    assert a - low == t;
  }

  lemma Quotient(a: nat, g: nat) returns (k: nat, low: nat)
    requires g > 0
    ensures a == k * g + low && low < g && low <= a
  {
    k, low := a / g, a % g;
  }

  lemma RoundIs(a: Angle, prec: nat, next: nat, half: nat, k: nat, low: nat)
    requires 1 <= prec <= 63 && next == Pow2(64 - prec) && half == Pow2(63 - prec)
    requires a == k * next + low && low < next && low <= a
    ensures Round(a, prec) == if low > half || (low == half && k % 2 != 0) then Wrap(a - low + next) else a - low
  {
    hide Pow2, Wrap;
    DivMod(k, low, next);
  }

  lemma SmallWrap(a: Angle)
    ensures Wrap(a) == a
  {
  }

  lemma NextTimes(k: nat, g: nat)
    ensures (k + 1) * g == k * g + g
  {
  }

  /** What rounding gives is on the grid. */
  lemma RoundOnGrid(a: Angle, prec: nat)
    ensures OnGrid(Round(a, prec), prec)
    ensures Round(a, prec) == a <==> OnGrid(a, prec)
  {
    TurnsOnGrid(prec);
    if prec >= 64 {
      TimesIsMultiple(a, 1);
    } else if prec > 0 {
      var k, low := RoundSteps(a, prec);
      TimesIsMultiple(k, Pow2(64 - prec));
      TimesIsMultiple(k + 1, Pow2(64 - prec));
      GridWrap(k * Pow2(64 - prec), prec);
      GridWrap((k + 1) * Pow2(64 - prec), prec);
      hide Round, Pow2;
    }
    if OnGrid(a, prec) {
      GridRound(a, prec);
    }
    hide Round, Pow2;
  }

  /** An angle half-way between two on the grid goes to the one that the grid of one bit less has as well. */
  lemma RoundTies(a: Angle, prec: nat)
    requires 1 <= prec <= 63 && 2 * Circ(Round(a, prec) - a) == Unit(prec)
    ensures OnGrid(Round(a, prec), prec - 1) && Round(a, prec) / Unit(prec) % 2 == 0
  {
    var k, low := RoundSteps(a, prec);
    var next := Pow2(64 - prec);
    TieIsHalf(a, prec);
    DivMod(k, low, next);
    HalvesDouble(prec);
    assert Unit(prec) == next && Grid(prec - 1) == 2 * next;
    hide *;
    assert low == Pow2(63 - prec);
    TieGoesEven(Round(a, prec), prec, k, next);
  }

  lemma TieGoesEven(r: Angle, prec: nat, k: nat, next: nat)
    requires 1 <= prec <= 63 && next > 0 && Grid(prec - 1) == 2 * next
    requires r == if k % 2 != 0 then Wrap((k + 1) * next) else Wrap(k * next)
    ensures OnGrid(r, prec - 1) && r / next % 2 == 0
  {
    hide *;
    var e := if k % 2 == 0 then k else k + 1;
    EvenTimes(e, next);
    EvenOnGrid(e * next, prec - 1, 2 * next);
    EvenQuotient(Wrap(e * next), next);
  }

  lemma HalvesDouble(prec: nat)
    requires 1 <= prec <= 63
    ensures Pow2(64 - prec) == 2 * Pow2(63 - prec) && Pow2(65 - prec) == 2 * Pow2(64 - prec)
  {
  }

  lemma DivMod(k: nat, low: nat, g: nat)
    requires low < g
    ensures (k * g + low) % g == low && (k * g + low) / g == k
  {
    var x := k * g + low;
    var d := x / g;
    assert (d - k) * g == low - x % g;
    FactorBounds(d - k, g);
  }

  lemma EvenTimes(e: nat, g: nat)
    requires e % 2 == 0 && g > 0
    ensures Multiple(e * g, 2 * g)
  {
    var k := e / 2;
    TimesIsMultiple(k, 2 * g);
    assert k * (2 * g) == e * g;
  }

  lemma EvenOnGrid(x: int, prec: nat, g: nat)
    requires g > 0 && g == Grid(prec) && Multiple(x, g)
    ensures OnGrid(Wrap(x), prec) && Multiple(Wrap(x), g)
  {
    GridWrap(x, prec);
  }

  lemma TieIsHalf(a: Angle, prec: nat)
    requires 1 <= prec <= 63 && 2 * Circ(Round(a, prec) - a) == Unit(prec)
    ensures a % Pow2(64 - prec) == Pow2(63 - prec)
  {
    var next := Pow2(64 - prec);
    var low := a % next;
    hide Circ, Wrap;
    StepNear(a, next - low);
    assert a - low + next == a + (next - low);
    CircBelow(-low);
  }

  lemma EvenQuotient(x: nat, g: nat)
    requires g > 0 && Multiple(x, 2 * g)
    ensures x / g % 2 == 0
  {
    var k := MultipleIsTimes(x, 2 * g);
    assert x == (2 * k) * g;
    DivTimes(2 * k, g);
  }

  lemma DivTimes(k: int, g: nat)
    requires g > 0
    ensures k * g / g == k
  {
    TimesIsMultiple(k, g);
    var d := k * g / g;
    assert (k - d) * g == 0;
    FactorBounds(k - d, g);
  }

  /** The nearest angle on the grid, a tie going to the coarser grid, is the one that rounding gives. */
  lemma RoundDetermined(a: Angle, r: Angle, prec: nat)
    requires OnGrid(r, prec) && 2 * Circ(r - a) <= Unit(prec)
    requires 1 <= prec <= 63 && 2 * Circ(r - a) == Unit(prec) ==> OnGrid(r, prec - 1)
    ensures r == Round(a, prec)
  {
    var n := Round(a, prec);
    RoundOnGrid(a, prec);
    RoundNear(a, prec);
    if 1 <= prec <= 63 && 2 * Circ(n - a) == Unit(prec) {
      RoundTies(a, prec);
    }
    hide Round;
    NearestAlike(a, r, n, prec);
  }

  lemma NearestAlike(a: Angle, r: Angle, n: Angle, prec: nat)
    requires OnGrid(r, prec) && 2 * Circ(r - a) <= Unit(prec)
    requires OnGrid(n, prec) && 2 * Circ(n - a) <= Unit(prec)
    requires 1 <= prec <= 63 && 2 * Circ(r - a) == Unit(prec) ==> OnGrid(r, prec - 1)
    requires 1 <= prec <= 63 && 2 * Circ(n - a) == Unit(prec) ==> OnGrid(n, prec - 1)
    ensures r == n
  {
    GridSum(r, n, prec);
    CircOnGrid(r - n, prec);
    if 1 <= prec <= 63 && OnGrid(r, prec - 1) && OnGrid(n, prec - 1) {
      GridSum(r, n, prec - 1);
      CircOnGrid(r - n, prec - 1);
    }
    if prec == 0 {
      Pow2At64();
    }
    hide OnGrid, Circ;
    CircNeg(n - a);
    CircAdd(r - a, -(n - a));
    assert r - a + -(n - a) == r - n;
    ZeroDistance(r, n);
  }

  lemma ZeroDistance(r: Angle, n: Angle)
    ensures Circ(r - n) == 0 ==> r == n
  {
    NearZeroIsEqual(r, n);
  }

  lemma CircOnGrid(d: int, prec: nat)
    requires OnGrid(d, prec)
    ensures Circ(d) == 0 || Circ(d) >= Grid(prec)
  {
    var g := Grid(prec);
    GridWrap(d, prec);
    TurnsOnGrid(prec);
    GridSum(TURN, Wrap(d), prec);
    hide Grid;
    AtLeastOnce(Circ(d), g);
  }

  lemma AtLeastOnce(x: nat, g: nat)
    requires g > 0 && Multiple(x, g)
    ensures x == 0 || x >= g
  {
  }

  /** Rounding does not take the angle for a quarter turn that it is not. */
  predicate IsPlain(a: Angle, prec: nat) {
    Round(a, prec) % PI_1_2 == 0 ==> Round(a, prec) == a
  }

  /** More than half a unit apart. */
  predicate IsFar(a: Angle, r: Angle, prec: nat) {
    2 * Circ(r - a) > Unit(prec)
  }

  /** Angles on the grid are plain, and so is every angle that is more than half a unit away from all quarter turns. */
  lemma PlainAngles(a: Angle, prec: nat)
    ensures OnGrid(a, prec) ==> IsPlain(a, prec)
    ensures (forall r: Angle :: r % PI_1_2 == 0 ==> IsFar(a, r, prec)) ==> IsPlain(a, prec)
    ensures IsPlain(0, prec) && Round(0, prec) == 0
  {
    RoundOnGrid(a, prec);
    RoundNear(a, prec);
    TurnsOnGrid(prec);
    GridRound(0, prec);
    assert !IsFar(a, Round(a, prec), prec);
    hide Round, OnGrid, IsFar;
  }

  /** The error allowed for one rounding decision when all angles are known to be on the grid, or not. */
  function UnitOf(prec: nat, fine: bool): nat {
    if fine then 0 else Unit(prec)
  }

  function HalfUnitOf(prec: nat, fine: bool): (r: nat)
    ensures 2 * r == UnitOf(prec, fine)
  {
    if fine then 0 else HalfUnit(prec)
  }

  lemma RoundNearOf(a: Angle, prec: nat, fine: bool)
    requires fine ==> OnGrid(a, prec)
    ensures Circ(Round(a, prec) - a) <= HalfUnitOf(prec, fine)
  {
    hide Circ, Round;
    if fine {
      GridRound(a, prec);
      CircBelow(0);
    } else {
      RoundNear(a, prec);
    }
  }

  /** If the difference of two angles rounds to zero, their `Mid` is within one unit of both, and it is either of them
      if they are on the grid. */
  lemma MidNearOf(a: Angle, b: Angle, prec: nat, fine: bool)
    requires Round(Wrap(b - a), prec) == 0 && (fine ==> OnGrid(a, prec) && OnGrid(b, prec))
    ensures Near(Mid(a, b), a, UnitOf(prec, fine)) && Near(Mid(a, b), b, UnitOf(prec, fine))
    ensures fine ==> OnGrid(Mid(a, b), prec)
  {
    hide Circ;
    if fine {
      GridSum(b, a, prec);
      GridRound(Wrap(b - a), prec);
      hide Round, OnGrid;
      MidSame(a, b);
      CircBelow(0);
    } else {
      MidNear(a, b, prec);
    }
  }

  lemma MidSame(a: Angle, b: Angle)
    requires Wrap(b - a) == 0
    ensures a == b && Mid(a, b) == a
  {
  }
}
