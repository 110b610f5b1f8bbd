/** The ripple-carry adder `int_add` of `examples/py/shor.py`. */
module ShorAdder {
  import opened Wrappers
  import opened Angles
  import opened Controls
  import opened Ops
  import opened Registers
  import opened ShorGates

  // The specification

  /** The carry into position `i` of the sum of the two registers. */
  function Carry(b: Bits, q: Register, a: Register, i: nat): bool
    requires i <= |q| == |a|
  {
    if i == 0 then false
    else
      var x, y, c := q[i - 1] in b, a[i - 1] in b, Carry(b, q, a, i - 1);
      (x && y) || (x && c) || (y && c)
  }

  function SumBit(b: Bits, q: Register, a: Register, i: nat): bool
    requires i < |q| == |a|
  {
    ((q[i] in b) != (a[i] in b)) != Carry(b, q, a, i)
  }

  /** Every qubit involved is a different one. */
  ghost predicate Layout(q: Register, a: Register, anc: Qubit, carry: Option<Qubit>) {
    && |q| == |a|
    && Distinct(q) && Distinct(a) && Disjoint(q, a)
    && anc !in q && anc !in a
    && (carry.Some? ==> carry.value !in q && carry.value !in a && carry.value != anc)
  }

  /** From `b` to `s`, `q` becomes the sum, the carry is xored in, and nothing else changes. */
  ghost predicate Added(b: Bits, s: Bits, q: Register, a: Register, carry: Option<Qubit>) {
    var sum := Val(b, q) + Val(b, a);
    && Val(s, q) == Wrapped(sum, |q|)
    && (forall x :: x !in q && Some(x) != carry ==> (x in s <==> x in b))
    && (carry.Some? ==> ((carry.value in s) == ((carry.value in b) != (sum >= Pow2(|q|)))))
  }

  /** The same, bit by bit. */
  ghost predicate AddedBits(b: Bits, s: Bits, q: Register, a: Register, carry: Option<Qubit>)
    requires |q| == |a|
  {
    && (forall i :: 0 <= i < |q| ==> ((q[i] in s) == SumBit(b, q, a, i)))
    && (forall x :: x !in q && Some(x) != carry ==> (x in s <==> x in b))
    && (carry.Some? ==> ((carry.value in s) == ((carry.value in b) != Carry(b, q, a, |q|))))
  }

  lemma {:induction false} SumOfPrefix(b: Bits, s: Bits, q: Register, a: Register, i: nat)
    requires i <= |q| == |a|
    requires forall j :: 0 <= j < i ==> ((q[j] in s) == SumBit(b, q, a, j))
    ensures Val(s, q[..i]) + (if Carry(b, q, a, i) then Pow2(i) else 0) == Val(b, q[..i]) + Val(b, a[..i])
  {
    if i > 0 {
      SumOfPrefix(b, s, q, a, i - 1);
      assert q[..i] == q[..i - 1] + [q[i - 1]] && a[..i] == a[..i - 1] + [a[i - 1]];
      ValSnoc(s, q[..i - 1], q[i - 1]);
      ValSnoc(b, q[..i - 1], q[i - 1]);
      ValSnoc(b, a[..i - 1], a[i - 1]);
    }
  }

  lemma SumDigits(sum: nat, p: nat, low: nat, carry: bool)
    requires low < p && sum == low + if carry then p else 0
    ensures sum % p == low && (carry <==> sum >= p)
  {
    DivUnique(sum, p, if carry then 1 else 0, low);
  }

  lemma BitsAddUp(b: Bits, s: Bits, q: Register, a: Register, carry: Option<Qubit>)
    requires |q| == |a| && AddedBits(b, s, q, a, carry)
    ensures Added(b, s, q, a, carry)
  {
    hide Carry, Val;
    var n := |q|;
    SumOfPrefix(b, s, q, a, n);
    assert q[..n] == q && a[..n] == a;
    ValBelow(s, q);
    SumDigits(Val(b, q) + Val(b, a), Pow2(n), Val(s, q), Carry(b, q, a, n));
  }

  // The states of the upward and the downward loop

  /** What a[j] holds while the last carry computed is at position `last`. */
  predicate InFlight(b: Bits, q: Register, a: Register, last: nat, j: nat)
    requires last < |a| - 1 && j < |a| == |q|
  {
    if j < last then Carry(b, q, a, j + 1) != (a[j + 1] in b)
    else if j == last then Carry(b, q, a, last + 1)
    else a[j] in b
  }

  /** Before position `i` of the upward loop: `a` holds the carries, each but the last xored
      with the next bit, `q` the half sums. */
  ghost predicate Up(b: Bits, s: Bits, q: Register, a: Register, anc: Qubit, i: nat)
    requires |q| == |a| >= 3 && 2 <= i < |q|
  {
    && (forall x :: x !in q && x !in a && x != anc ==> (x in s <==> x in b))
    && ((anc in s) == (Carry(b, q, a, 1) != (a[1] in b)))
    && (q[0] in s <==> q[0] in b) && (a[0] in s <==> a[0] in b)
    && (forall j :: 1 <= j < |q| ==> ((q[j] in s) == if j < i then (q[j] in b) != (a[j] in b) else q[j] in b))
    && (forall j :: 1 <= j < |a| ==> ((a[j] in s) == InFlight(b, q, a, i - 1, j)))
  }

  /** Before position `i` of the downward loop: above it the sum is done and `a` restored. */
  ghost predicate Down(b: Bits, s: Bits, q: Register, a: Register, anc: Qubit, carry: Option<Qubit>, i: nat)
    requires |q| == |a| >= 3 && 1 <= i < |q| - 1
  {
    && (forall x :: x !in q && x !in a && x != anc && Some(x) != carry ==> (x in s <==> x in b))
    && (carry.Some? ==> ((carry.value in s) == ((carry.value in b) != Carry(b, q, a, |q|))))
    && ((anc in s) == (Carry(b, q, a, 1) != (a[1] in b)))
    && (q[0] in s <==> q[0] in b) && (a[0] in s <==> a[0] in b)
    && (forall j :: 1 <= j < |q| ==> ((q[j] in s) == if j <= i then (q[j] in b) != (a[j] in b) else SumBit(b, q, a, j)))
    && (forall j :: 1 <= j < |a| ==> ((a[j] in s) == InFlight(b, q, a, i, j)))
  }

  lemma UpStart(b: Bits, q: Register, a: Register, anc: Qubit)
    requires Layout(q, a, anc, None) && |q| >= 3 && anc !in b
    ensures var s1 := Ccx(b, q[0], a[0], anc);
      var s2 := Cx(s1, a[1], anc);
      var s3 := Cx(s2, a[1], q[1]);
      Up(b, Ccx(s3, anc, q[1], a[1]), q, a, anc, 2)
  {
    assert Carry(b, q, a, 1) == (q[0] in b && a[0] in b);
    assert Carry(b, q, a, 2) == Carry(b, q, a, 1 + 1);
  }

  lemma UpStep(b: Bits, s: Bits, q: Register, a: Register, anc: Qubit, i: nat)
    requires Layout(q, a, anc, None) && |q| >= 3 && 2 <= i < |q| - 1 && Up(b, s, q, a, anc, i)
    ensures var s1 := Cx(s, a[i], a[i - 1]);
      var s2 := Cx(s1, a[i], q[i]);
      Up(b, Ccx(s2, a[i - 1], q[i], a[i]), q, a, anc, i + 1)
  {
    CarryStep(b, q, a, i);
    hide Carry;
    var s3 := Ccx(Cx(Cx(s, a[i], a[i - 1]), a[i], q[i]), a[i - 1], q[i], a[i]);
    assert q[i] in q && a[i] in a && a[i - 1] in a;
    assert (a[i - 1] in s3) == InFlight(b, q, a, i, i - 1);
    assert (q[i] in s3) == ((q[i] in b) != (a[i] in b));
    assert (a[i] in s3) == InFlight(b, q, a, i, i);
    forall j | 1 <= j < |a| ensures (a[j] in s3) == InFlight(b, q, a, i, j) {
      assert j != i - 1 && j != i ==> InFlight(b, q, a, i, j) == InFlight(b, q, a, i - 1, j);
    }
  }

  /** The half-adder form of the majority. */
  lemma CarryStep(b: Bits, q: Register, a: Register, i: nat)
    requires i < |q| == |a|
    ensures var x, y, c := q[i] in b, a[i] in b, Carry(b, q, a, i);
      Carry(b, q, a, i + 1) == (y != ((c != y) && (x != y)))
  {
  }

  /** The state after the top position. */
  function TopState(s: Bits, q: Register, a: Register, carry: Option<Qubit>): Bits
    requires |q| == |a| >= 2
  {
    var n := |q|;
    var s1 := Cx(s, a[n - 1], q[n - 1]);
    var s5 := if carry.None? then s1 else
      var s2 := Cx(s1, a[n - 1], carry.value);
      var s3 := Cx(s2, a[n - 1], a[n - 2]);
      var s4 := Ccx(s3, a[n - 2], q[n - 1], carry.value);
      Cx(s4, a[n - 1], a[n - 2]);
    Cx(s5, a[n - 2], q[n - 1])
  }

  /** The top position changes the last sum bit and the carry qubit only. */
  lemma TopTouches(b: Bits, s: Bits, q: Register, a: Register, anc: Qubit, carry: Option<Qubit>)
    requires Layout(q, a, anc, carry) && |q| >= 3 && Up(b, s, q, a, anc, |q| - 1)
    ensures var t := TopState(s, q, a, carry);
      && (q[|q| - 1] in t) == SumBit(b, q, a, |q| - 1)
      && (carry.Some? ==> ((carry.value in t) == ((carry.value in b) != Carry(b, q, a, |q|))))
      && (forall x :: x != q[|q| - 1] && Some(x) != carry ==> (x in t <==> x in s))
  {
    var n := |q|;
    CarryStep(b, q, a, n - 1);
    hide Carry;
    assert InFlight(b, q, a, n - 2, n - 2) == Carry(b, q, a, n - 1);
    assert a[n - 2] in s <==> Carry(b, q, a, n - 1);
    assert q[n - 1] in q && a[n - 1] in a && a[n - 2] in a;
  }

  lemma TopStep(b: Bits, s: Bits, q: Register, a: Register, anc: Qubit, carry: Option<Qubit>)
    requires Layout(q, a, anc, carry) && |q| >= 3 && Up(b, s, q, a, anc, |q| - 1)
    ensures Down(b, TopState(s, q, a, carry), q, a, anc, carry, |q| - 2)
  {
    TopTouches(b, s, q, a, anc, carry);
    hide Carry, TopState;
    assert q[|q| - 1] in q;
  }

  /** The three qubits that one position of the downward loop touches. */
  lemma DownTouches(b: Bits, s: Bits, q: Register, a: Register, anc: Qubit, carry: Option<Qubit>, i: nat)
    requires Layout(q, a, anc, carry) && |q| >= 3 && 2 <= i < |q| - 1 && Down(b, s, q, a, anc, carry, i)
    ensures var s3 := Cx(Cx(Ccx(s, a[i - 1], q[i], a[i]), a[i], a[i - 1]), a[i - 1], q[i]);
      && (a[i] in s3 <==> a[i] in b) && (a[i - 1] in s3) == Carry(b, q, a, i) && (q[i] in s3) == SumBit(b, q, a, i)
      && (forall x :: x != a[i - 1] && x != a[i] && x != q[i] ==> (x in s3 <==> x in s))
  {
    hide Carry;
    CarryStep(b, q, a, i);
    LayoutApart(q, a, anc, carry);
    assert Carry(b, q, a, i - 1 + 1) == Carry(b, q, a, i);
  }

  lemma DownStep(b: Bits, s: Bits, q: Register, a: Register, anc: Qubit, carry: Option<Qubit>, i: nat)
    requires Layout(q, a, anc, carry) && |q| >= 3 && 2 <= i < |q| - 1 && Down(b, s, q, a, anc, carry, i)
    ensures var s1 := Ccx(s, a[i - 1], q[i], a[i]);
      var s2 := Cx(s1, a[i], a[i - 1]);
      Down(b, Cx(s2, a[i - 1], q[i]), q, a, anc, carry, i - 1)
  {
    hide Carry, Cx, Ccx;
    DownTouches(b, s, q, a, anc, carry, i);
    LayoutApart(q, a, anc, carry);
    var s3 := Cx(Cx(Ccx(s, a[i - 1], q[i], a[i]), a[i], a[i - 1]), a[i - 1], q[i]);
    forall j | 1 <= j < |q|
      ensures (q[j] in s3) == if j <= i - 1 then (q[j] in b) != (a[j] in b) else SumBit(b, q, a, j) {
      assert j != i ==> (q[j] in s3 <==> q[j] in s);
    }
    forall j | 1 <= j < |a| ensures (a[j] in s3) == InFlight(b, q, a, i - 1, j) {
      assert j != i - 1 && j != i ==> InFlight(b, q, a, i, j) == InFlight(b, q, a, i - 1, j);
    }
  }

  lemma DownEnd(b: Bits, s: Bits, q: Register, a: Register, anc: Qubit, carry: Option<Qubit>)
    requires Layout(q, a, anc, carry) && |q| >= 3 && anc !in b && Down(b, s, q, a, anc, carry, 1)
    ensures var s1 := Ccx(s, anc, q[1], a[1]);
      var s2 := Cx(s1, a[1], anc);
      var s3 := Cx(s2, anc, q[1]);
      var s4 := Ccx(s3, q[0], a[0], anc);
      AddedBits(b, Cx(s4, a[0], q[0]), q, a, carry)
  {
    CarryStep(b, q, a, 0);
    CarryStep(b, q, a, 1);
    assert !Carry(b, q, a, 0);
    hide Carry;
    var s1 := Ccx(s, anc, q[1], a[1]);
    var s2 := Cx(s1, a[1], anc);
    var s3 := Cx(s2, anc, q[1]);
    var s4 := Ccx(s3, q[0], a[0], anc);
    var s5 := Cx(s4, a[0], q[0]);
    assert a[1] in a && a[0] in a && q[0] in q && q[1] in q;
    assert a[1] in s1 <==> a[1] in b;
    assert (anc in s2) == Carry(b, q, a, 1);
    assert (q[1] in s3) == SumBit(b, q, a, 1);
    assert !(anc in s4);
    assert (q[0] in s5) == SumBit(b, q, a, 0);
    forall x | x !in q && Some(x) != carry ensures x in s5 <==> x in b {
      if x in a {
        var j :| 0 <= j < |a| && a[j] == x;
        assert a[j] in s1 <==> a[j] in b;
        assert x in s1 <==> x in s5;
      } else if x == anc {
        assert x in s4 <==> x in s5;
      } else {
        assert x in s <==> x in b;
        assert x in s <==> x in s5;
      }
    }
  }

  // The gates, in groups

  function StartGates(q: Register, a: Register, anc: Qubit): OpSeq
    requires |q| == |a| >= 2
  {
    [CcxOp(q[0], a[0], anc), CxOp(a[1], anc), CxOp(a[1], q[1]), CcxOp(anc, q[1], a[1])]
  }

  function UpGates(q: Register, a: Register, i: nat): OpSeq
    requires 1 <= i < |q| == |a|
  {
    [CxOp(a[i], a[i - 1]), CxOp(a[i], q[i]), CcxOp(a[i - 1], q[i], a[i])]
  }

  function CarryGates(q: Register, a: Register, carry: Option<Qubit>): OpSeq
    requires |q| == |a| >= 2
  {
    var n := |q|;
    if carry.None? then []
    else [CxOp(a[n - 1], carry.value), CxOp(a[n - 1], a[n - 2]), CcxOp(a[n - 2], q[n - 1], carry.value), CxOp(a[n - 1], a[n - 2])]
  }

  function TopGates(q: Register, a: Register, carry: Option<Qubit>): OpSeq
    requires |q| == |a| >= 2
  {
    var n := |q|;
    [CxOp(a[n - 1], q[n - 1])] + CarryGates(q, a, carry) + [CxOp(a[n - 2], q[n - 1])]
  }

  function DownGates(q: Register, a: Register, i: nat): OpSeq
    requires 1 <= i < |q| == |a|
  {
    [CcxOp(a[i - 1], q[i], a[i]), CxOp(a[i], a[i - 1]), CxOp(a[i - 1], q[i])]
  }

  function EndGates(q: Register, a: Register, anc: Qubit): OpSeq
    requires |q| == |a| >= 2
  {
    [CcxOp(anc, q[1], a[1]), CxOp(a[1], anc), CxOp(anc, q[1]), CcxOp(q[0], a[0], anc), CxOp(a[0], q[0])]
  }

  ghost predicate AllUp(seg: OpSeq, q: Register, a: Register, anc: Qubit, i: nat)
    requires |q| == |a| >= 3 && 2 <= i < |q|
  {
    AllValid(seg) && forall b: Bits :: anc !in b ==> Up(b, Run(seg, b), q, a, anc, i)
  }

  ghost predicate AllDown(seg: OpSeq, q: Register, a: Register, anc: Qubit, carry: Option<Qubit>, i: nat)
    requires |q| == |a| >= 3 && 1 <= i < |q| - 1
  {
    AllValid(seg) && forall b: Bits :: anc !in b ==> Down(b, Run(seg, b), q, a, anc, carry, i)
  }

  /** The gate list adds `a` into `q` on every basis state with a clear ancilla. */
  ghost predicate Adds(seg: OpSeq, q: Register, a: Register, carry: Option<Qubit>, anc: Qubit) {
    AllValid(seg) && forall b: Bits :: anc !in b ==> Added(b, Run(seg, b), q, a, carry)
  }

  lemma LayoutApart(q: Register, a: Register, anc: Qubit, carry: Option<Qubit>)
    requires Layout(q, a, anc, carry)
    ensures forall i, j :: 0 <= i < |q| && 0 <= j < |q| && i != j ==> q[i] != q[j] && a[i] != a[j]
    ensures forall i, j :: 0 <= i < |q| && 0 <= j < |q| ==> q[i] != a[j]
    ensures forall i :: 0 <= i < |q| ==> q[i] != anc && a[i] != anc && Some(q[i]) != carry && Some(a[i]) != carry
  {
  }

  lemma AllUpStart(q: Register, a: Register, anc: Qubit)
    requires Layout(q, a, anc, None) && |q| >= 3
    ensures AllUp(StartGates(q, a, anc), q, a, anc, 2)
  {
    hide Run, OpBits, Cx, Ccx, Up;
    LayoutApart(q, a, anc, None);
    var g := StartGates(q, a, anc);
    forall b: Bits ensures anc !in b ==> Up(b, Run(g, b), q, a, anc, 2) ensures AllValid(g) {
      var s1 := Ccx(b, q[0], a[0], anc);
      var s2 := Cx(s1, a[1], anc);
      var s3 := Cx(s2, a[1], q[1]);
      CcxMeans(q[0], a[0], anc, b);
      CxMeans(a[1], anc, s1);
      CxMeans(a[1], q[1], s2);
      CcxMeans(anc, q[1], a[1], s3);
      RunFour(g[0], g[1], g[2], g[3], b);
      if anc !in b {
        UpStart(b, q, a, anc);
      }
    }
  }

  lemma AllUpStep(seg: OpSeq, q: Register, a: Register, anc: Qubit, i: nat)
    requires Layout(q, a, anc, None) && |q| >= 3 && 2 <= i < |q| - 1 && AllUp(seg, q, a, anc, i)
    ensures AllUp(seg + UpGates(q, a, i), q, a, anc, i + 1)
  {
    hide Run, OpBits, Cx, Ccx, Up;
    LayoutApart(q, a, anc, None);
    var g := UpGates(q, a, i);
    var all := seg + g;
    forall b: Bits ensures anc !in b ==> Up(b, Run(all, b), q, a, anc, i + 1) ensures AllValid(g) {
      var s := Run(seg, b);
      var s1 := Cx(s, a[i], a[i - 1]);
      var s2 := Cx(s1, a[i], q[i]);
      CxMeans(a[i], a[i - 1], s);
      CxMeans(a[i], q[i], s1);
      CcxMeans(a[i - 1], q[i], a[i], s2);
      RunThree(g[0], g[1], g[2], s);
      RunConcat(seg, g, b);
      if anc !in b {
        UpStep(b, s, q, a, anc, i);
      }
    }
  }

  lemma AllTopStep(seg: OpSeq, q: Register, a: Register, anc: Qubit, carry: Option<Qubit>)
    requires Layout(q, a, anc, carry) && |q| >= 3 && AllUp(seg, q, a, anc, |q| - 1)
    ensures AllDown(seg + TopGates(q, a, carry), q, a, anc, carry, |q| - 2)
  {
    hide Run, OpBits, Cx, Ccx, Up, Down;
    LayoutApart(q, a, anc, carry);
    var n := |q|;
    var g, c := TopGates(q, a, carry), CarryGates(q, a, carry);
    var first, last := CxOp(a[n - 1], q[n - 1]), CxOp(a[n - 2], q[n - 1]);
    var all := seg + g;
    forall b: Bits ensures anc !in b ==> Down(b, Run(all, b), q, a, anc, carry, n - 2) ensures AllValid(g) {
      var s := Run(seg, b);
      var s1 := Cx(s, a[n - 1], q[n - 1]);
      CarryRun(q, a, anc, carry, s1);
      var s5 := Run(c, s1);
      CxMeans(a[n - 1], q[n - 1], s);
      CxMeans(a[n - 2], q[n - 1], s5);
      RunConcat(seg, g, b);
      RunConcat([first] + c, [last], s);
      RunConcat([first], c, s);
      RunOne(first, s);
      RunOne(last, s5);
      if anc !in b {
        TopStep(b, s, q, a, anc, carry);
      }
    }
  }

  lemma CarryRun(q: Register, a: Register, anc: Qubit, carry: Option<Qubit>, s1: Bits)
    requires Layout(q, a, anc, carry) && |q| >= 3
    ensures AllValid(CarryGates(q, a, carry))
    ensures Run(CarryGates(q, a, carry), s1) ==
      if carry.None? then s1 else
        var n := |q|;
        var s2 := Cx(s1, a[n - 1], carry.value);
        var s3 := Cx(s2, a[n - 1], a[n - 2]);
        var s4 := Ccx(s3, a[n - 2], q[n - 1], carry.value);
        Cx(s4, a[n - 1], a[n - 2])
  {
    hide OpBits, Cx, Ccx;
    if carry.Some? {
      LayoutApart(q, a, anc, carry);
      var n, c := |q|, carry.value;
      var s2 := Cx(s1, a[n - 1], c);
      var s3 := Cx(s2, a[n - 1], a[n - 2]);
      var s4 := Ccx(s3, a[n - 2], q[n - 1], c);
      CxMeans(a[n - 1], c, s1);
      CxMeans(a[n - 1], a[n - 2], s2);
      CcxMeans(a[n - 2], q[n - 1], c, s3);
      CxMeans(a[n - 1], a[n - 2], s4);
      RunFour(CxOp(a[n - 1], c), CxOp(a[n - 1], a[n - 2]), CcxOp(a[n - 2], q[n - 1], c), CxOp(a[n - 1], a[n - 2]), s1);
    }
  }

  lemma AllDownStep(seg: OpSeq, q: Register, a: Register, anc: Qubit, carry: Option<Qubit>, i: nat)
    requires Layout(q, a, anc, carry) && |q| >= 3 && 2 <= i < |q| - 1 && AllDown(seg, q, a, anc, carry, i)
    ensures AllDown(seg + DownGates(q, a, i), q, a, anc, carry, i - 1)
  {
    hide Run, OpBits, Cx, Ccx, Down;
    LayoutApart(q, a, anc, carry);
    var g := DownGates(q, a, i);
    var all := seg + g;
    forall b: Bits ensures anc !in b ==> Down(b, Run(all, b), q, a, anc, carry, i - 1) ensures AllValid(g) {
      var s := Run(seg, b);
      var s1 := Ccx(s, a[i - 1], q[i], a[i]);
      var s2 := Cx(s1, a[i], a[i - 1]);
      CcxMeans(a[i - 1], q[i], a[i], s);
      CxMeans(a[i], a[i - 1], s1);
      CxMeans(a[i - 1], q[i], s2);
      RunThree(g[0], g[1], g[2], s);
      RunConcat(seg, g, b);
      if anc !in b {
        DownStep(b, s, q, a, anc, carry, i);
      }
    }
  }

  lemma AllDownEnd(seg: OpSeq, q: Register, a: Register, anc: Qubit, carry: Option<Qubit>)
    requires Layout(q, a, anc, carry) && |q| >= 3 && AllDown(seg, q, a, anc, carry, 1)
    ensures Adds(seg + EndGates(q, a, anc), q, a, carry, anc)
  {
    hide Run, OpBits, Cx, Ccx, Down, Added;
    LayoutApart(q, a, anc, carry);
    var g := EndGates(q, a, anc);
    var all := seg + g;
    forall b: Bits ensures anc !in b ==> Added(b, Run(all, b), q, a, carry) ensures AllValid(g) {
      var s := Run(seg, b);
      var s1 := Ccx(s, anc, q[1], a[1]);
      var s2 := Cx(s1, a[1], anc);
      var s3 := Cx(s2, anc, q[1]);
      var s4 := Ccx(s3, q[0], a[0], anc);
      CcxMeans(anc, q[1], a[1], s);
      CxMeans(a[1], anc, s1);
      CxMeans(anc, q[1], s2);
      CcxMeans(q[0], a[0], anc, s3);
      CxMeans(a[0], q[0], s4);
      RunFive(g[0], g[1], g[2], g[3], g[4], s);
      RunConcat(seg, g, b);
      if anc !in b {
        DownEnd(b, s, q, a, anc, carry);
        BitsAddUp(b, Run(all, b), q, a, carry);
      }
    }
  }

  // Short registers

  lemma AddsNothing(q: Register, a: Register, carry: Option<Qubit>, anc: Qubit)
    requires Layout(q, a, anc, carry) && |q| == 0
    ensures Adds([], q, a, carry, anc)
  {
    assert Pow2(0) == 1;
  }

  function OneGates(q: Register, a: Register, carry: Option<Qubit>): OpSeq
    requires |q| == |a| == 1
  {
    (if carry.Some? then [CcxOp(a[0], q[0], carry.value)] else []) + [CxOp(a[0], q[0])]
  }

  lemma AddsOne(q: Register, a: Register, carry: Option<Qubit>, anc: Qubit)
    requires Layout(q, a, anc, carry) && |q| == 1
    ensures Adds(OneGates(q, a, carry), q, a, carry, anc)
  {
    hide Added;
    LayoutApart(q, a, anc, carry);
    var g := OneGates(q, a, carry);
    var c, last := g[..|g| - 1], CxOp(a[0], q[0]);
    assert g == c + [last];
    forall b: Bits ensures Added(b, Run(g, b), q, a, carry) ensures AllValid(g) {
      var s := if carry.Some? then Ccx(b, a[0], q[0], carry.value) else b;
      if carry.Some? {
        CcxMeans(a[0], q[0], carry.value, b);
        RunOne(CcxOp(a[0], q[0], carry.value), b);
        assert c == [CcxOp(a[0], q[0], carry.value)];
      }
      assert Run(c, b) == s;
      CxMeans(a[0], q[0], s);
      RunConcat(c, [last], b);
      RunOne(last, s);
      assert !Carry(b, q, a, 0);
      CarryStep(b, q, a, 0);
      BitsAddUp(b, Run(g, b), q, a, carry);
    }
  }

  function TwoGates(q: Register, a: Register): OpSeq
    requires |q| == |a| == 2
  {
    [CxOp(a[1], q[1]), CcxOp(a[0], q[0], q[1]), CxOp(a[0], q[0])]
  }

  lemma AddsTwo(q: Register, a: Register, anc: Qubit)
    requires Layout(q, a, anc, None) && |q| == 2
    ensures Adds(TwoGates(q, a), q, a, None, anc)
  {
    hide Run, OpBits, Added;
    LayoutApart(q, a, anc, None);
    var g := TwoGates(q, a);
    forall b: Bits ensures Added(b, Run(g, b), q, a, None) ensures AllValid(g) {
      var s1 := Cx(b, a[1], q[1]);
      var s2 := Ccx(s1, a[0], q[0], q[1]);
      CxMeans(a[1], q[1], b);
      CcxMeans(a[0], q[0], q[1], s1);
      CxMeans(a[0], q[0], s2);
      RunThree(g[0], g[1], g[2], b);
      assert !Carry(b, q, a, 0);
      CarryStep(b, q, a, 0);
      BitsAddUp(b, Run(g, b), q, a, None);
    }
  }

  function TwoCarryGates(q: Register, a: Register, anc: Qubit, carry: Qubit): OpSeq
    requires |q| == |a| == 2
  {
    [CcxOp(q[0], a[0], anc), CxOp(a[1], anc), CxOp(a[1], q[1]), CxOp(a[1], carry), CcxOp(anc, q[1], carry)]
    + [CxOp(a[1], anc), CxOp(anc, q[1]), CcxOp(q[0], a[0], anc), CxOp(a[0], q[0])]
  }

  lemma AddsTwoCarry(q: Register, a: Register, anc: Qubit, carry: Qubit)
    requires Layout(q, a, anc, Some(carry)) && |q| == 2
    ensures Adds(TwoCarryGates(q, a, anc, carry), q, a, Some(carry), anc)
  {
    hide Run, OpBits, Cx, Ccx, Added, AddedBits;
    LayoutApart(q, a, anc, Some(carry));
    var g := TwoCarryGates(q, a, anc, carry);
    var g1, g2 := g[..5], g[5..];
    assert g == g1 + g2;
    forall b: Bits ensures anc !in b ==> Added(b, Run(g, b), q, a, Some(carry)) ensures AllValid(g) {
      var s1 := Ccx(b, q[0], a[0], anc);
      var s2 := Cx(s1, a[1], anc);
      var s3 := Cx(s2, a[1], q[1]);
      var s4 := Cx(s3, a[1], carry);
      var s5 := Ccx(s4, anc, q[1], carry);
      var s6 := Cx(s5, a[1], anc);
      var s7 := Cx(s6, anc, q[1]);
      var s8 := Ccx(s7, q[0], a[0], anc);
      CcxMeans(q[0], a[0], anc, b);
      CxMeans(a[1], anc, s1);
      CxMeans(a[1], q[1], s2);
      CxMeans(a[1], carry, s3);
      CcxMeans(anc, q[1], carry, s4);
      CxMeans(a[1], anc, s5);
      CxMeans(anc, q[1], s6);
      CcxMeans(q[0], a[0], anc, s7);
      CxMeans(a[0], q[0], s8);
      RunFive(g1[0], g1[1], g1[2], g1[3], g1[4], b);
      RunFour(g2[0], g2[1], g2[2], g2[3], s5);
      RunConcat(g1, g2, b);
      if anc !in b {
        TwoCarryBits(b, q, a, anc, carry);
        BitsAddUp(b, Run(g, b), q, a, Some(carry));
      }
    }
  }

  lemma TwoCarryBits(b: Bits, q: Register, a: Register, anc: Qubit, carry: Qubit)
    requires Layout(q, a, anc, Some(carry)) && |q| == 2 && anc !in b
    ensures var s1 := Ccx(b, q[0], a[0], anc);
      var s2 := Cx(s1, a[1], anc);
      var s3 := Cx(s2, a[1], q[1]);
      var s4 := Cx(s3, a[1], carry);
      var s5 := Ccx(s4, anc, q[1], carry);
      var s6 := Cx(s5, a[1], anc);
      var s7 := Cx(s6, anc, q[1]);
      var s8 := Ccx(s7, q[0], a[0], anc);
      AddedBits(b, Cx(s8, a[0], q[0]), q, a, Some(carry))
  {
    LayoutApart(q, a, anc, Some(carry));
    assert !Carry(b, q, a, 0);
    CarryStep(b, q, a, 0);
    CarryStep(b, q, a, 1);
    assert q[0] in q && q[1] in q;
  }

  /** The adder: on every basis state with a clear ancilla, `q` becomes (q + a) mod 2^n, the carry
      qubit (if there is one) is xored with the carry out, and every other qubit is restored. */
  method IntAdd(sim: Simulator, q: Register, a: Register, carry: Option<Qubit>, anc: Qubit) returns (ghost seg: OpSeq)
    requires Layout(q, a, anc, carry)
    modifies sim
    ensures sim.ops == old(sim.ops) + seg
    ensures Adds(seg, q, a, carry, anc)
  {
    hide Adds, AllUp, AllDown;
    LayoutApart(q, a, anc, carry);
    var n := |q|;
    if n == 0 {
      AddsNothing(q, a, carry, anc);
      return [];
    }
    if n == 1 {
      if carry.Some? {
        sim.Ccx(a[0], q[0], carry.value);
      }
      sim.Cx(a[0], q[0]);
      AddsOne(q, a, carry, anc);
      return OneGates(q, a, carry);
    }
    if n == 2 && carry.None? {
      sim.Cx(a[1], q[1]);
      sim.Ccx(a[0], q[0], q[1]);
      sim.Cx(a[0], q[0]);
      AddsTwo(q, a, anc);
      return TwoGates(q, a);
    }
    if n == 2 {
      sim.Ccx(q[0], a[0], anc);
      sim.Cx(a[1], anc);
      sim.Cx(a[1], q[1]);
      sim.Cx(a[1], carry.value);
      sim.Ccx(anc, q[1], carry.value);
      sim.Cx(a[1], anc);
      sim.Cx(anc, q[1]);
      sim.Ccx(q[0], a[0], anc);
      sim.Cx(a[0], q[0]);
      AddsTwoCarry(q, a, anc, carry.value);
      return TwoCarryGates(q, a, anc, carry.value);
    }
    seg := RippleAdd(sim, q, a, carry, anc);
  }

  /** The upward half of the adder. */
  method GoUp(sim: Simulator, q: Register, a: Register, anc: Qubit) returns (ghost seg: OpSeq)
    requires Layout(q, a, anc, None) && |q| >= 3
    modifies sim
    ensures sim.ops == old(sim.ops) + seg
    ensures AllUp(seg, q, a, anc, |q| - 1)
  {
    hide AllUp;
    LayoutApart(q, a, anc, None);
    var n := |q|;
    ghost var was := sim.ops;
    sim.Ccx(q[0], a[0], anc);
    sim.Cx(a[1], anc);
    sim.Cx(a[1], q[1]);
    sim.Ccx(anc, q[1], a[1]);
    seg := StartGates(q, a, anc);
    AllUpStart(q, a, anc);
    for i := 2 to n - 1
      invariant sim.ops == was + seg
      invariant AllUp(seg, q, a, anc, i)
    {
      sim.Cx(a[i], a[i - 1]);
      sim.Cx(a[i], q[i]);
      sim.Ccx(a[i - 1], q[i], a[i]);
      AllUpStep(seg, q, a, anc, i);
      seg := seg + UpGates(q, a, i);
    }
  }

  /** The top position, where the carry out is taken. */
  method Top(sim: Simulator, q: Register, a: Register, carry: Option<Qubit>, ghost anc: Qubit)
    requires Layout(q, a, anc, carry) && |q| >= 3
    modifies sim
    ensures sim.ops == old(sim.ops) + TopGates(q, a, carry)
  {
    LayoutApart(q, a, anc, carry);
    var n := |q|;
    sim.Cx(a[n - 1], q[n - 1]);
    if carry.Some? {
      sim.Cx(a[n - 1], carry.value);
      sim.Cx(a[n - 1], a[n - 2]);
      sim.Ccx(a[n - 2], q[n - 1], carry.value);
      sim.Cx(a[n - 1], a[n - 2]);
    }
    sim.Cx(a[n - 2], q[n - 1]);
  }

  /** The downward half, which finishes the sum and restores `a` and the ancilla. */
  method GoDown(sim: Simulator, q: Register, a: Register, carry: Option<Qubit>, anc: Qubit, ghost done: OpSeq)
    returns (ghost seg: OpSeq)
    requires Layout(q, a, anc, carry) && |q| >= 3
    requires AllDown(done, q, a, anc, carry, |q| - 2)
    modifies sim
    ensures sim.ops == old(sim.ops) + seg
    ensures Adds(done + seg, q, a, carry, anc)
  {
    hide Adds, AllDown;
    LayoutApart(q, a, anc, carry);
    ghost var was := sim.ops;
    seg := [];
    assert done + seg == done;
    var i := |q| - 2;
    while i > 1
      invariant 1 <= i <= |q| - 2
      invariant sim.ops == was + seg
      invariant AllDown(done + seg, q, a, anc, carry, i)
    {
      sim.Ccx(a[i - 1], q[i], a[i]);
      sim.Cx(a[i], a[i - 1]);
      sim.Cx(a[i - 1], q[i]);
      AllDownStep(done + seg, q, a, anc, carry, i);
      assert done + seg + DownGates(q, a, i) == done + (seg + DownGates(q, a, i));
      seg := seg + DownGates(q, a, i);
      i := i - 1;
    }
    AllDownEnd(done + seg, q, a, anc, carry);
    assert done + seg + EndGates(q, a, anc) == done + (seg + EndGates(q, a, anc));
    IssueEnd(sim, q, a, anc, carry);
    seg := seg + EndGates(q, a, anc);
  }

  method IssueEnd(sim: Simulator, q: Register, a: Register, anc: Qubit, ghost carry: Option<Qubit>)
    requires Layout(q, a, anc, carry) && |q| >= 3
    modifies sim
    ensures sim.ops == old(sim.ops) + EndGates(q, a, anc)
  {
    LayoutApart(q, a, anc, carry);
    sim.Ccx(anc, q[1], a[1]);
    sim.Cx(a[1], anc);
    sim.Cx(anc, q[1]);
    sim.Ccx(q[0], a[0], anc);
    sim.Cx(a[0], q[0]);
  }

  /** The general case of the adder, from three qubits on. */
  method RippleAdd(sim: Simulator, q: Register, a: Register, carry: Option<Qubit>, anc: Qubit) returns (ghost seg: OpSeq)
    requires Layout(q, a, anc, carry) && |q| >= 3
    modifies sim
    ensures sim.ops == old(sim.ops) + seg
    ensures Adds(seg, q, a, carry, anc)
  {
    hide Adds, AllUp, AllDown, TopGates;
    ghost var up := GoUp(sim, q, a, anc);
    AllTopStep(up, q, a, anc, carry);
    Top(sim, q, a, carry, anc);
    ghost var done := up + TopGates(q, a, carry);
    ghost var down := GoDown(sim, q, a, carry, anc, done);
    seg := done + down;
  }
}
