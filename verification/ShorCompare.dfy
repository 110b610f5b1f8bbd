/** The comparator `int_geq` and the constant xor `int_xor` of `examples/py/shor.py`. */
module ShorCompare {
  import opened Angles
  import opened Controls
  import opened Ops
  import opened Registers
  import opened ShorGates

  ghost predicate Clear(b: Bits, r: Register) {
    forall i :: 0 <= i < |r| ==> r[i] !in b
  }

  ghost predicate GeqLayout(q: Register, anc: Register, out: Qubit, ctl: Qubit) {
    && 1 <= |q| <= |anc| + 1
    && Distinct(q) && Distinct(anc) && Disjoint(q, anc)
    && out !in q && out !in anc && ctl !in q && ctl !in anc && ctl != out
  }

  /** The gate list xors `out` with ctl && q >= a, and restores everything else,
      on every basis state with clear ancillas. */
  ghost predicate Compares(seg: OpSeq, q: Register, a: nat, out: Qubit, ctl: Qubit, anc: Register) {
    && AllValid(seg)
    && forall b: Bits :: Clear(b, anc) ==> Run(seg, b) == Toggle(b, ctl in b && Val(b, q) >= a, out)
  }

  // The comparison, bit by bit

  /** The low i + 1 bits of the register exceed those of the even constant `a`. */
  predicate Exceeds(b: Bits, q: Register, a: nat, i: nat)
    requires i < |q|
  {
    if i == 0 then q[0] in b
    else if Bit(a, i) then q[i] in b && Exceeds(b, q, a, i - 1)
    else q[i] in b || Exceeds(b, q, a, i - 1)
  }

  lemma {:induction false} ExceedsMeans(b: Bits, q: Register, a: nat, i: nat)
    requires i < |q| && !Bit(a, 0)
    ensures Exceeds(b, q, a, i) <==> Val(b, q[..i + 1]) > a % Pow2(i + 1)
    decreases i
  {
    LowBits(a, i);
    assert q[..i + 1] == q[..i] + [q[i]];
    ValSnoc(b, q[..i], q[i]);
    ValBelow(b, q[..i]);
    if i > 0 {
      ExceedsMeans(b, q, a, i - 1);
    }
  }

  // Stripping the trailing ones

  lemma {:induction false} ValSplit(b: Bits, q: Register, i: nat)
    requires i <= |q|
    ensures Val(b, q) == Val(b, q[..i]) + Pow2(i) * Val(b, q[i..])
    decreases |q|
  {
    if i == |q| {
      assert q[..i] == q && q[i..] == [];
    } else {
      var n := |q| - 1;
      ValSplit(b, q[..n], i);
      assert q[..n][..i] == q[..i] && q[..n][i..] == q[i..n] && q[i..] == q[i..n] + [q[n]];
      ValSnoc(b, q[i..n], q[n]);
      Pow2Add(i, n - i);
      SumOfMultiples(Pow2(i), Val(b, q[i..n]), if q[n] in b then Pow2(n - i) else 0);
    }
  }

  /** Comparing with a number that ends in ones only needs the bits above them. */
  lemma StripOnes(b: Bits, q: Register, a: nat, i: nat)
    requires i <= |q| && a % Pow2(i) == Pow2(i) - 1
    ensures Val(b, q) >= a + 1 <==> Val(b, q[i..]) > Shr(a, i)
  {
    hide Val, Pow2;
    ValSplit(b, q, i);
    ValBelow(b, q[..i]);
    DivMod(a, Pow2(i));
    CompareHigh(Pow2(i), Val(b, q[i..]), Val(b, q[..i]), Shr(a, i));
  }

  lemma DivMod(a: nat, p: nat)
    requires p > 0
    ensures a == p * (a / p) + a % p && a / p >= 0
  {
  }

  lemma CompareHigh(p: nat, vh: nat, vl: nat, ah: nat)
    requires vl < p
    ensures vl + p * vh > p * ah + (p - 1) <==> vh > ah
  {
    if vh > ah {
      MulLe(p, ah + 1, vh);
    } else {
      MulLe(p, vh, ah);
    }
  }

  // The upward loop computes, the downward loop uncomputes

  function Block(q: Register, a: nat, anc: Register, i: nat): OpSeq
    requires 1 <= i < |q| == |anc|
  {
    (if Bit(a, i) then [] else [XOp(q[i]), XOp(anc[i - 1]), XOp(anc[i])]) + [CcxOp(q[i], anc[i - 1], anc[i])]
  }

  /** The gates of the upward loop before position `i`. */
  function Blocks(q: Register, a: nat, anc: Register, i: nat): OpSeq
    requires 1 <= i <= |q| == |anc|
  {
    if i == 1 then [] else Blocks(q, a, anc, i - 1) + Block(q, a, anc, i - 1)
  }

  /** The ancillas as the loop sees them: the lowest one is the lowest register qubit itself. */
  ghost predicate Chained(q: Register, anc: Register, out: Qubit, ctl: Qubit) {
    && |q| == |anc| >= 1 && anc[0] == q[0]
    && Distinct(q) && Distinct(anc)
    && (forall i, j :: 0 <= i < |q| && 1 <= j < |anc| ==> q[i] != anc[j])
    && (forall i :: 0 <= i < |q| ==> q[i] != out && q[i] != ctl && anc[i] != out && anc[i] != ctl)
    && ctl != out
  }

  /** Before position `i` of the upward loop. */
  ghost predicate Chain(b: Bits, s: Bits, q: Register, a: nat, anc: Register, ctl: Qubit, i: nat)
    requires 1 <= i <= |q| == |anc|
  {
    && ((anc[i - 1] in s) == Exceeds(b, q, a, i - 1))
    && (forall j :: i <= j < |q| ==> (q[j] in s <==> q[j] in b) && anc[j] !in s)
    && (ctl in s <==> ctl in b)
  }

  lemma BlockStep(b: Bits, s: Bits, q: Register, a: nat, anc: Register, out: Qubit, ctl: Qubit, i: nat)
    requires Chained(q, anc, out, ctl) && 1 <= i < |q| && Chain(b, s, q, a, anc, ctl, i)
    ensures Chain(b, Run(Block(q, a, anc, i), s), q, a, anc, ctl, i + 1)
    ensures AllValid(Block(q, a, anc, i))
  {
    hide Run, OpBits;
    var g := Block(q, a, anc, i);
    if Bit(a, i) {
      assert g == [CcxOp(q[i], anc[i - 1], anc[i])];
      RunOne(g[0], s);
      CcxMeans(q[i], anc[i - 1], anc[i], s);
    } else {
      var s1 := Toggle(s, true, q[i]);
      var s2 := Toggle(s1, true, anc[i - 1]);
      var s3 := Toggle(s2, true, anc[i]);
      XMeans(q[i], s);
      XMeans(anc[i - 1], s1);
      XMeans(anc[i], s2);
      CcxMeans(q[i], anc[i - 1], anc[i], s3);
      assert g == [XOp(q[i]), XOp(anc[i - 1]), XOp(anc[i]), CcxOp(q[i], anc[i - 1], anc[i])];
      RunFour(g[0], g[1], g[2], g[3], s);
    }
  }

  lemma {:induction false} BlocksCompute(b: Bits, q: Register, a: nat, anc: Register, out: Qubit, ctl: Qubit, i: nat)
    requires Chained(q, anc, out, ctl) && 1 <= i <= |q| && forall j :: 1 <= j < |anc| ==> anc[j] !in b
    ensures AllValid(Blocks(q, a, anc, i)) && Chain(b, Run(Blocks(q, a, anc, i), b), q, a, anc, ctl, i)
    decreases i
  {
    if i > 1 {
      BlocksCompute(b, q, a, anc, out, ctl, i - 1);
      RunConcat(Blocks(q, a, anc, i - 1), Block(q, a, anc, i - 1), b);
      BlockStep(b, Run(Blocks(q, a, anc, i - 1), b), q, a, anc, out, ctl, i - 1);
    }
  }

  /** The operations neither read nor write the qubit. */
  ghost predicate Ignores(ops: OpSeq, x: Qubit) {
    forall i :: 0 <= i < |ops| ==> !Uses(ops[i].ctl, x) && ops[i].op.X? && ops[i].op.q != x
  }

  lemma {:induction false} RunIgnoring(ops: OpSeq, x: Qubit, b: Bits)
    requires Ignores(ops, x)
    ensures Run(ops, Flip(b, {x})) == Flip(Run(ops, b), {x})
    decreases |ops|
  {
    if ops != [] {
      var o, rest := ops[|ops| - 1], ops[..|ops| - 1];
      RunIgnoring(rest, x, b);
      var s := Run(rest, b);
      assert Holds(o.ctl, Flip(s, {x})) <==> Holds(o.ctl, s) by {
        assert forall i :: 0 <= i < |o.ctl| ==> o.ctl[i].qubit != x;
      }
    }
  }

  lemma {:induction false} BlocksIgnore(q: Register, a: nat, anc: Register, out: Qubit, ctl: Qubit, i: nat)
    requires Chained(q, anc, out, ctl) && 1 <= i <= |q|
    ensures Ignores(Blocks(q, a, anc, i), out)
    decreases i
  {
    if i > 1 {
      BlocksIgnore(q, a, anc, out, ctl, i - 1);
    }
  }

  lemma {:induction false} ReverseConcat(s: OpSeq, t: OpSeq)
    ensures Reverse(s + t) == Reverse(t) + Reverse(s)
    decreases |t|
  {
    if t == [] {
      assert s + t == s;
    } else {
      assert (s + t)[..|s + t| - 1] == s + t[..|t| - 1];
      ReverseConcat(s, t[..|t| - 1]);
    }
  }

  /** Compute, copy the answer out under the control, uncompute. */
  function Sandwich(q: Register, a: nat, anc: Register, out: Qubit, ctl: Qubit): OpSeq
    requires 1 <= |q| == |anc|
  {
    Blocks(q, a, anc, |q|) + [CcxOp(ctl, anc[|q| - 1], out)] + Reverse(Blocks(q, a, anc, |q|))
  }

  lemma SandwichRun(b: Bits, q: Register, a: nat, anc: Register, out: Qubit, ctl: Qubit)
    requires Chained(q, anc, out, ctl) && !Bit(a, 0) && a < Pow2(|q|)
    requires forall j :: 1 <= j < |anc| ==> anc[j] !in b
    ensures Run(Sandwich(q, a, anc, out, ctl), b) == Toggle(b, ctl in b && Val(b, q) > a, out)
  {
    hide OpBits;
    var n := |q|;
    var u, mid := Blocks(q, a, anc, n), CcxOp(ctl, anc[n - 1], out);
    var s := Run(u, b);
    BlocksCompute(b, q, a, anc, out, ctl, n);
    BlocksIgnore(q, a, anc, out, ctl, n);
    hide Run;
    RunConcat(u + [mid], Reverse(u), b);
    RunConcat(u, [mid], b);
    RunOne(mid, s);
    CcxMeans(ctl, anc[n - 1], out, s);
    RunBack(u, b);
    assert Ignores(Reverse(u), out);
    RunIgnoring(Reverse(u), out, s);
    ExceedsMeans(b, q, a, n - 1);
    assert q[..n] == q;
    DivUnique(a, Pow2(n), 0, a);
  }

  lemma SandwichValid(q: Register, a: nat, anc: Register, out: Qubit, ctl: Qubit)
    requires Chained(q, anc, out, ctl)
    ensures AllValid(Sandwich(q, a, anc, out, ctl))
  {
    BlocksCompute({}, q, a, anc, out, ctl, |q|);
    CcxMeans(ctl, anc[|q| - 1], out, {});
  }

  lemma ChainedFrom(q: Register, anc: Register, out: Qubit, ctl: Qubit)
    requires GeqLayout(q, anc, out, ctl)
    ensures Chained(q, [q[0]] + anc[..|q| - 1], out, ctl)
  {
    var c := [q[0]] + anc[..|q| - 1];
    forall i, j | 0 <= i < |q| && 1 <= j < |c| ensures q[i] != c[j] {
      assert c[j] == anc[j - 1];
    }
    forall j | 1 <= j < |c| ensures c[j] in anc {
      assert c[j] == anc[j - 1];
    }
    forall i | 0 <= i < |q| ensures q[i] != out && q[i] != ctl {
      assert q[i] in q;
    }
    assert Distinct(c);
  }

  lemma ComparesNever(q: Register, a: nat, out: Qubit, ctl: Qubit, anc: Register)
    requires a >= Pow2(|q|)
    ensures Compares([], q, a, out, ctl, anc)
  {
    forall b: Bits ensures Run([], b) == Toggle(b, ctl in b && Val(b, q) >= a, out) {
      ValBelow(b, q);
    }
  }

  lemma ComparesAlways(q: Register, out: Qubit, ctl: Qubit, anc: Register)
    requires ctl != out
    ensures Compares([CxOp(ctl, out)], q, 0, out, ctl, anc)
  {
    var g := [CxOp(ctl, out)];
    forall b: Bits ensures Run(g, b) == Toggle(b, ctl in b && Val(b, q) >= 0, out) ensures AllValid(g) {
      CxMeans(ctl, out, b);
      RunOne(CxOp(ctl, out), b);
    }
  }

  /** After stripping, a single qubit is left, and the constant is zero. */
  lemma ComparesBit(q: Register, a: nat, i: nat, out: Qubit, ctl: Qubit, anc: Register)
    requires GeqLayout(q, anc, out, ctl) && |q| == i + 1
    requires a < Pow2(|q|) - 1 && a % Pow2(i) == Pow2(i) - 1 && !Bit(a, i)
    ensures Compares([CcxOp(ctl, q[i], out)], q, a + 1, out, ctl, anc)
  {
    var g := [CcxOp(ctl, q[i], out)];
    var r := q[i..];
    forall b: Bits ensures Run(g, b) == Toggle(b, ctl in b && Val(b, q) >= a + 1, out) ensures AllValid(g) {
      assert q[i] in q;
      CcxMeans(ctl, q[i], out, b);
      RunOne(CcxOp(ctl, q[i], out), b);
      StripOnes(b, q, a, i);
      LowBits(a, i);
      DivUnique(a, Pow2(i + 1), 0, a);
      DivUnique(a, Pow2(i), 0, a);
      assert r == [] + [q[i]];
      ValSnoc(b, [], q[i]);
    }
  }

  /** What is left of the constant above its trailing ones. */
  lemma StripRange(a: nat, i: nat, n: nat)
    requires a < Pow2(i + n) && !Bit(a, i)
    ensures !Bit(Shr(a, i), 0) && Shr(a, i) < Pow2(n)
  {
    BitZero(Shr(a, i));
    Pow2Add(i, n);
    DivMod(a, Pow2(i));
    if Shr(a, i) >= Pow2(n) {
      MulLe(Pow2(i), Pow2(n), Shr(a, i));
    }
  }

  lemma StrippedLayout(q: Register, anc: Register, out: Qubit, ctl: Qubit, i: nat)
    requires GeqLayout(q, anc, out, ctl) && i < |q|
    ensures GeqLayout(q[i..], anc, out, ctl)
  {
    forall x | x in q[i..] ensures x in q {
    }
  }

  lemma LongAt(b: Bits, q: Register, a: nat, i: nat, r: Register, h: nat, c: Register, out: Qubit, ctl: Qubit)
    requires i <= |q| && r == q[i..] && h == Shr(a, i) && a % Pow2(i) == Pow2(i) - 1
    requires Chained(r, c, out, ctl) && !Bit(h, 0) && h < Pow2(|r|)
    requires forall j :: 1 <= j < |c| ==> c[j] !in b
    ensures Run(Sandwich(r, h, c, out, ctl), b) == Toggle(b, ctl in b && Val(b, q) >= a + 1, out)
  {
    hide Sandwich, Run;
    SandwichRun(b, r, h, c, out, ctl);
    StripOnes(b, q, a, i);
  }

  lemma ComparesLong(q: Register, a: nat, i: nat, out: Qubit, ctl: Qubit, anc: Register)
    requires GeqLayout(q, anc, out, ctl) && i + 2 <= |q|
    requires a < Pow2(|q|) - 1 && a % Pow2(i) == Pow2(i) - 1 && !Bit(a, i)
    ensures var r := q[i..];
      Compares(Sandwich(r, Shr(a, i), [r[0]] + anc[..|r| - 1], out, ctl), q, a + 1, out, ctl, anc)
  {
    hide Sandwich, Run, Val, Chained, Bit;
    var r, h := q[i..], Shr(a, i);
    var c := [r[0]] + anc[..|r| - 1];
    StrippedLayout(q, anc, out, ctl, i);
    ChainedFrom(r, anc, out, ctl);
    SandwichValid(r, h, c, out, ctl);
    StripRange(a, i, |r|);
    var g := Sandwich(r, h, c, out, ctl);
    forall b: Bits ensures Clear(b, anc) ==> Run(g, b) == Toggle(b, ctl in b && Val(b, q) >= a + 1, out) {
      if Clear(b, anc) {
        assert forall j :: 1 <= j < |c| ==> c[j] == anc[j - 1];
        LongAt(b, q, a, i, r, h, c, out, ctl);
      }
    }
  }

  /** Count the trailing ones of a number below 2^n - 1. */
  method TrailingOnes(a: nat, ghost n: nat) returns (i: nat)
    requires a < Pow2(n) - 1
    ensures i < n && !Bit(a, i) && a % Pow2(i) == Pow2(i) - 1
  {
    i := 0;
    assert Pow2(0) == 1;
    while Bit(a, i)
      invariant i < n && a % Pow2(i) == Pow2(i) - 1
      decreases n - i
    {
      LowBits(a, i);
      if i + 1 >= n {
        Pow2Mono(n, i + 1);
        DivUnique(a, Pow2(i + 1), 0, a);
      }
      i := i + 1;
    }
  }

  /** The comparator, for every constant a >= 0, the stripped trailing ones included. */
  method IntGeq(sim: Simulator, q0: Register, a0: nat, out: Qubit, ctl: Qubit, geqAnc: Register) returns (ghost seg: OpSeq)
    requires GeqLayout(q0, geqAnc, out, ctl)
    modifies sim
    ensures sim.ops == old(sim.ops) + seg
    ensures Compares(seg, q0, a0, out, ctl, geqAnc)
  {
    hide Compares, Sandwich, Bit;
    var n := |q0|;
    if a0 >= Pow2(n) {
      ComparesNever(q0, a0, out, ctl, geqAnc);
      return [];
    }
    if a0 == 0 {
      sim.Cx(ctl, out);
      ComparesAlways(q0, out, ctl, geqAnc);
      return [CxOp(ctl, out)];
    }
    var i0 := TrailingOnes(a0 - 1, n);
    var q, a := q0[i0..], Shr(a0 - 1, i0);
    n := n - i0;
    if n == 1 {
      assert q0[i0] in q0;
      sim.Ccx(ctl, q[0], out);
      ComparesBit(q0, a0 - 1, i0, out, ctl, geqAnc);
      return [CcxOp(ctl, q0[i0], out)];
    }
    var anc := [q[0]] + geqAnc[..n - 1];
    StrippedLayout(q0, geqAnc, out, ctl, i0);
    ChainedFrom(q, geqAnc, out, ctl);
    GeqLoops(sim, q, a, anc, out, ctl);
    ComparesLong(q0, a0 - 1, i0, out, ctl, geqAnc);
    seg := Sandwich(q, a, anc, out, ctl);
  }

  /** The two loops of the comparator: the downward one issues the upward one's gates backwards. */
  method GeqLoops(sim: Simulator, q: Register, a: nat, anc: Register, out: Qubit, ctl: Qubit)
    requires Chained(q, anc, out, ctl)
    modifies sim
    ensures sim.ops == old(sim.ops) + Sandwich(q, a, anc, out, ctl)
  {
    var n := |q|;
    GeqUp(sim, q, a, anc, out, ctl);
    sim.Ccx(ctl, anc[n - 1], out);
    GeqDown(sim, q, a, anc, out, ctl);
  }

  method GeqUp(sim: Simulator, q: Register, a: nat, anc: Register, ghost out: Qubit, ghost ctl: Qubit)
    requires Chained(q, anc, out, ctl)
    modifies sim
    ensures sim.ops == old(sim.ops) + Blocks(q, a, anc, |q|)
  {
    hide Block;
    var i := 1;
    while i < |q|
      invariant 1 <= i <= |q|
      invariant sim.ops == old(sim.ops) + Blocks(q, a, anc, i)
    {
      IssueBlock(sim, q, a, anc, i, out, ctl);
      i := i + 1;
    }
  }

  method IssueBlock(sim: Simulator, q: Register, a: nat, anc: Register, i: nat, ghost out: Qubit, ghost ctl: Qubit)
    requires Chained(q, anc, out, ctl) && 1 <= i < |q|
    modifies sim
    ensures sim.ops == old(sim.ops) + Block(q, a, anc, i)
  {
    if !Bit(a, i) {
      sim.X(q[i]);
      sim.X(anc[i - 1]);
      sim.X(anc[i]);
    }
    sim.Ccx(q[i], anc[i - 1], anc[i]);
  }

  method IssueBlockBack(sim: Simulator, q: Register, a: nat, anc: Register, i: nat, ghost out: Qubit, ghost ctl: Qubit)
    requires Chained(q, anc, out, ctl) && 1 <= i < |q|
    modifies sim
    ensures sim.ops == old(sim.ops) + Reverse(Block(q, a, anc, i))
  {
    sim.Ccx(q[i], anc[i - 1], anc[i]);
    if !Bit(a, i) {
      sim.X(anc[i]);
      sim.X(anc[i - 1]);
      sim.X(q[i]);
    }
    ReverseBlock(q, a, anc, i);
  }

  method GeqDown(sim: Simulator, q: Register, a: nat, anc: Register, ghost out: Qubit, ghost ctl: Qubit)
    requires Chained(q, anc, out, ctl)
    modifies sim
    ensures sim.ops == old(sim.ops) + Reverse(Blocks(q, a, anc, |q|))
  {
    hide Block, Reverse;
    var i := |q|;
    ghost var done: OpSeq := [];
    while i > 1
      invariant 1 <= i <= |q|
      invariant sim.ops == old(sim.ops) + done
      invariant done + Reverse(Blocks(q, a, anc, i)) == Reverse(Blocks(q, a, anc, |q|))
    {
      i := i - 1;
      ghost var back := Reverse(Block(q, a, anc, i));
      IssueBlockBack(sim, q, a, anc, i, out, ctl);
      ReverseConcat(Blocks(q, a, anc, i), Block(q, a, anc, i));
      assert done + (back + Reverse(Blocks(q, a, anc, i))) == (done + back) + Reverse(Blocks(q, a, anc, i));
      done := done + back;
    }
    assert Reverse(Blocks(q, a, anc, 1)) == [];
    assert done + [] == done;
  }

  lemma ReverseBlock(q: Register, a: nat, anc: Register, i: nat)
    requires 1 <= i < |q| == |anc|
    ensures Reverse(Block(q, a, anc, i)) ==
      [CcxOp(q[i], anc[i - 1], anc[i])] + if Bit(a, i) then [] else [XOp(anc[i]), XOp(anc[i - 1]), XOp(q[i])]
  {
  }

  // int_xor

  /** The qubits of the register at the one bits of a constant. */
  function BitQubits(q: Register, a: nat): set<Qubit> {
    set i | 0 <= i < |q| && Bit(a, i) :: q[i]
  }

  function FlipIf(b: Bits, c: bool, t: set<Qubit>): (r: Bits)
    ensures forall x :: x in r <==> (x in b) != (c && x in t)
  {
    if c then Flip(b, t) else b
  }

  /** The gate list flips the register at the one bits of `a`, if the control is set. */
  ghost predicate XorsIn(seg: OpSeq, q: Register, a: nat, ctl: Qubit) {
    AllValid(seg) && forall b: Bits :: Run(seg, b) == FlipIf(b, ctl in b, BitQubits(q, a))
  }

  method IntXor(sim: Simulator, q: Register, a: nat, ctl: Qubit) returns (ghost seg: OpSeq)
    requires ctl !in q && Distinct(q)
    modifies sim
    ensures sim.ops == old(sim.ops) + seg
    ensures XorsIn(seg, q, a, ctl)
  {
    hide XorsIn;
    seg := [];
    XorsNothing(q, a, ctl);
    for i := 0 to |q|
      invariant sim.ops == old(sim.ops) + seg
      invariant XorsIn(seg, q[..i], a, ctl)
    {
      assert q[i] in q;
      assert q[..i + 1] == q[..i] + [q[i]];
      XorsNext(seg, q, a, ctl, i);
      if Bit(a, i) {
        sim.Cx(ctl, q[i]);
        seg := seg + [CxOp(ctl, q[i])];
      }
    }
    assert q[..|q|] == q;
  }

  lemma XorsNothing(q: Register, a: nat, ctl: Qubit)
    ensures XorsIn([], q[..0], a, ctl)
  {
    assert BitQubits(q[..0], a) == {};
  }

  lemma BitQubitsNext(q: Register, a: nat, i: nat)
    requires i < |q|
    ensures BitQubits(q[..i + 1], a) == BitQubits(q[..i], a) + (if Bit(a, i) then {q[i]} else {})
  {
    hide Bit;
    var p, t := BitQubits(q[..i], a), BitQubits(q[..i + 1], a);
    forall x ensures x in t <==> x in p || (Bit(a, i) && x == q[i]) {
      if x in t {
        var j :| 0 <= j < i + 1 && Bit(a, j) && q[..i + 1][j] == x;
        assert j < i ==> q[..i][j] == x;
      }
      if x in p {
        var j :| 0 <= j < i && Bit(a, j) && q[..i][j] == x;
        assert q[..i + 1][j] == x;
      }
      if x == q[i] && Bit(a, i) {
        assert q[..i + 1][i] == x;
      }
    }
  }

  lemma XorsNext(seg: OpSeq, q: Register, a: nat, ctl: Qubit, i: nat)
    requires ctl !in q && Distinct(q) && i < |q| && XorsIn(seg, q[..i], a, ctl)
    ensures XorsIn(if Bit(a, i) then seg + [CxOp(ctl, q[i])] else seg, q[..i + 1], a, ctl)
  {
    hide Run, OpBits;
    var p, t := BitQubits(q[..i], a), BitQubits(q[..i + 1], a);
    BitQubitsNext(q, a, i);
    PrefixSpares(q, a, ctl, i);
    hide BitQubits;
    if Bit(a, i) {
      var all := seg + [CxOp(ctl, q[i])];
      forall b: Bits ensures Run(all, b) == FlipIf(b, ctl in b, t) ensures AllValid(all) {
        RunSnoc(seg, CxOp(ctl, q[i]), b);
        CxMeans(ctl, q[i], Run(seg, b));
        FlipMore(b, p, q[i]);
      }
    }
  }

  lemma PrefixSpares(q: Register, a: nat, ctl: Qubit, i: nat)
    requires ctl !in q && Distinct(q) && i < |q|
    ensures ctl != q[i] && q[i] !in BitQubits(q[..i], a) && ctl !in BitQubits(q[..i], a)
  {
    assert q[i] in q;
  }

  lemma FlipMore(b: Bits, p: set<Qubit>, x: Qubit)
    requires x !in p
    ensures Flip(Flip(b, p), {x}) == Flip(b, p + {x})
  {
  }
}
