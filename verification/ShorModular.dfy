/** The modular adder `mod_add` and the in-place modular multiplier `mod_mul` of `examples/py/shor.py`. */
module ShorModular {
  import opened Wrappers
  import opened Angles
  import opened Controls
  import opened Ops
  import opened Registers
  import opened ModularArithmetic
  import opened ShorGates
  import opened ShorAdder
  import opened ShorCompare

  // Adding the argument register modulo 2^n

  /** Where the ancilla is clear (and the argument short, if `short`), `q` becomes (q + arg) mod 2^n. */
  ghost predicate AddsPow2(seg: OpSeq, q: Register, arg: Register, anc: Qubit, short: bool)
    requires |q| >= 1
  {
    && AllValid(seg)
    && forall b: Bits :: anc !in b && (short ==> Val(b, arg) < Pow2(|q| - 1)) ==> Summed(b, Run(seg, b), q, arg)
  }

  ghost predicate Summed(b: Bits, s: Bits, q: Register, arg: Register) {
    SameExcept(b, s, q) && Val(s, q) == Wrapped(Val(b, q) + Val(b, arg), |q|)
  }

  lemma LongSum(b: Bits, s: Bits, q: Register, arg: Register)
    requires Added(b, s, q, arg, None)
    ensures Summed(b, s, q, arg)
  {
  }

  /** Adding into all but the top qubit, with the carry going to the top one. */
  lemma ShortSum(b: Bits, s: Bits, q: Register, arg: Register)
    requires |q| == |arg| >= 1 && Distinct(q)
    requires Val(b, arg) < Pow2(|q| - 1)
    requires Added(b, s, q[..|q| - 1], arg[..|q| - 1], Some(q[|q| - 1]))
    ensures Summed(b, s, q, arg)
  {
    var n := |q| - 1;
    forall x | x !in q ensures x in s <==> x in b {
      assert x !in q[..n];
      assert x != q[n];
    }
    ShortVal(b, s, q, arg);
  }

  lemma ShortVal(b: Bits, s: Bits, q: Register, arg: Register)
    requires |q| == |arg| >= 1
    requires Val(b, arg) < Pow2(|q| - 1)
    requires Added(b, s, q[..|q| - 1], arg[..|q| - 1], Some(q[|q| - 1]))
    ensures Val(s, q) == Wrapped(Val(b, q) + Val(b, arg), |q|)
  {
    hide Wrapped, Val, Pow2;
    var n := |q| - 1;
    var p, v, w := Pow2(n), Val(b, q[..n]), Val(b, arg[..n]);
    ValBelow(b, q[..n]);
    ValTop(b, q);
    ValTop(s, q);
    ValTop(b, arg);
    assert Val(s, q[..n]) == Wrapped(v + w, n);
    CarryVal(Val(s, q), Val(b, q), n, v, w, q[n] in b);
  }

  lemma ValTop(b: Bits, q: Register)
    requires |q| >= 1
    ensures Val(b, q) == Val(b, q[..|q| - 1]) + if q[|q| - 1] in b then Pow2(|q| - 1) else 0
  {
  }

  lemma CarryVal(t: nat, u: nat, n: nat, v: nat, w: nat, hi: bool)
    requires v < Pow2(n) && w < Pow2(n) && u == v + if hi then Pow2(n) else 0
    requires t == Wrapped(v + w, n) + if hi != (v + w >= Pow2(n)) then Pow2(n) else 0
    ensures t == Wrapped(u + w, n + 1)
  {
    CarryDigit(Pow2(n), v, w, hi);
  }

  lemma CarryDigit(p: nat, v: nat, w: nat, hi: bool)
    requires v < p && w < p
    ensures (v + (if hi then p else 0) + w) % (2 * p) ==
      (v + w) % p + if hi != (v + w >= p) then p else 0
  {
    var t := v + w;
    var c := if t >= p then 1 else 0;
    DivUnique(t, p, c, t - p * c);
    var total := t + if hi then p else 0;
    var d := if total >= 2 * p then 1 else 0;
    DivUnique(total, 2 * p, d, total - 2 * p * d);
  }

  method AddArg(sim: Simulator, q: Register, arg: Register, anc: Qubit, short: bool) returns (ghost seg: OpSeq)
    requires |q| >= 1 && Layout(q, arg, anc, None)
    modifies sim
    ensures sim.ops == old(sim.ops) + seg
    ensures AddsPow2(seg, q, arg, anc, short)
  {
    var n := |q| - 1;
    if short {
      ShortLayout(q, arg, anc);
      seg := IntAdd(sim, q[..n], arg[..n], Some(q[n]), anc);
      AddsShort(seg, q, arg, anc);
    } else {
      seg := IntAdd(sim, q, arg, None, anc);
      AddsLong(seg, q, arg, anc);
    }
  }

  lemma ShortLayout(q: Register, arg: Register, anc: Qubit)
    requires |q| >= 1 && Layout(q, arg, anc, None)
    ensures Layout(q[..|q| - 1], arg[..|q| - 1], anc, Some(q[|q| - 1]))
  {
    assert q[|q| - 1] in q;
  }

  lemma AddsShort(seg: OpSeq, q: Register, arg: Register, anc: Qubit)
    requires |q| >= 1 && Layout(q, arg, anc, None)
    requires Adds(seg, q[..|q| - 1], arg[..|q| - 1], Some(q[|q| - 1]), anc)
    ensures AddsPow2(seg, q, arg, anc, true)
  {
    hide Summed, Added;
    forall b: Bits ensures anc !in b && Val(b, arg) < Pow2(|q| - 1) ==> Summed(b, Run(seg, b), q, arg) {
      if anc !in b && Val(b, arg) < Pow2(|q| - 1) {
        ShortSum(b, Run(seg, b), q, arg);
      }
    }
  }

  lemma AddsLong(seg: OpSeq, q: Register, arg: Register, anc: Qubit)
    requires |q| >= 1 && Adds(seg, q, arg, None, anc)
    ensures AddsPow2(seg, q, arg, anc, false)
  {
    hide Summed, Added;
    forall b: Bits ensures anc !in b ==> Summed(b, Run(seg, b), q, arg) {
      if anc !in b {
        LongSum(b, Run(seg, b), q, arg);
      }
    }
  }

  // mod_add

  ghost predicate ModLayout(q: Register, arg: Register, ctl: Qubit, flag: Qubit, anc: Qubit) {
    && 1 <= |q| == |arg|
    && Distinct(q) && Distinct(arg) && Disjoint(q, arg)
    && ctl !in q && ctl !in arg && flag !in q && flag !in arg && anc !in q && anc !in arg
    && ctl != flag && ctl != anc && flag != anc
  }

  /** The ancillas of the modular adder are clear. */
  ghost predicate Clean(b: Bits, arg: Register, flag: Qubit, anc: Qubit) {
    Clear(b, arg) && flag !in b && anc !in b
  }

  /** From `b` to `s`, a controlled modular addition of the constant, with everything else restored. */
  ghost predicate ModAdded(b: Bits, s: Bits, q: Register, a: nat, ctl: Qubit, m: nat)
    requires m > 0
  {
    && SameExcept(b, s, q)
    && Val(s, q) == if ctl in b then AddMod(Val(b, q), a, m) else Val(b, q)
  }

  function AddMod(v: nat, a: nat, m: nat): nat
    requires m > 0
  {
    (v + a) % m
  }

  ghost predicate ModAdds(seg: OpSeq, q: Register, a: nat, ctl: Qubit, m: nat, arg: Register, flag: Qubit, anc: Qubit)
    requires m > 0
  {
    && AllValid(seg)
    && forall b: Bits :: Clean(b, arg, flag, anc) && Val(b, q) < m ==> ModAdded(b, Run(seg, b), q, a, ctl, m)
  }

  /** What has to be added modulo 2^n: nothing, a, or a - m. */
  function Addend(n: nat, m: nat, a: nat, c: bool, o: bool): nat
    requires a < m <= Pow2(n)
  {
    if !c then 0 else if o then Pow2(n) - m + a else a
  }

  /** Adding that number modulo 2^n is adding a modulo m; the flag tells which of the two it was. */
  lemma AddendMeans(n: nat, m: nat, a: nat, c: bool, v: nat)
    requires 0 < a < m <= Pow2(n) && v < m
    ensures var o := c && v >= m - a;
      var r := Wrapped(v + Addend(n, m, a, c, o), n);
      && r == (if c then AddMod(v, a, m) else v)
      && o == (c && r < a)
  {
    var p := Pow2(n);
    var o := c && v >= m - a;
    var t := v + Addend(n, m, a, c, o);
    if o {
      DivUnique(t, p, 1, v + a - m);
      DivUnique(v + a, m, 1, v + a - m);
    } else {
      DivUnique(t, p, 0, t);
      if c {
        DivUnique(v + a, m, 0, v + a);
      }
    }
  }

  /** The two constants xored into the clear argument register make up the addend. */
  lemma ArgHolds(b: Bits, s: Bits, arg: Register, a: nat, x: nat, c: bool, o: bool)
    requires Distinct(arg) && Clear(b, arg) && (o ==> c)
    requires a < Pow2(|arg|) && x < Pow2(|arg|)
    requires forall i :: 0 <= i < |arg| ==>
      (arg[i] in s <==> (arg[i] in b) != ((c && arg[i] in BitQubits(arg, a)) != (o && arg[i] in BitQubits(arg, x))))
    ensures Val(s, arg) == if !c then 0 else if o then Xor(x, a) else a
  {
    var w := if !c then 0 else if o then Xor(x, a) else a;
    forall i | 0 <= i < |arg| ensures arg[i] in s <==> Bit(w, i) {
      BitQubitAt(arg, a, i);
      BitQubitAt(arg, x, i);
      XorBit(x, a, i);
      BitBelow(0, i);
    }
    ValOfBits(s, arg, w);
    XorBelow(x, a, |arg|);
    DivUnique(w, Pow2(|arg|), 0, w);
  }

  lemma BitQubitAt(q: Register, a: nat, i: nat)
    requires Distinct(q) && i < |q|
    ensures q[i] in BitQubits(q, a) <==> Bit(a, i)
  {
    hide Bit;
    if q[i] in BitQubits(q, a) {
      var j :| 0 <= j < |q| && Bit(a, j) && q[j] == q[i];
      assert i == j;
    }
  }

  lemma BitQubitsWithin(q: Register, a: nat)
    ensures forall x :: x in BitQubits(q, a) ==> x in q
  {
  }

  /** After the comparison and the two xors: the argument register holds the addend, the flag the overflow. */
  lemma StagePrepare(b: Bits, s1: Bits, s2: Bits, s3: Bits, q: Register, a: nat, x: nat, ctl: Qubit, m: nat,
                     arg: Register, flag: Qubit, anc: Qubit, o: bool)
    requires ModLayout(q, arg, ctl, flag, anc) && 0 < a < m <= Pow2(|q|)
    requires x < Pow2(|q|) && Xor(x, a) == Pow2(|q|) - m + a
    requires Clean(b, arg, flag, anc) && (o ==> ctl in b)
    requires s1 == Toggle(b, o, flag)
    requires s2 == FlipIf(s1, ctl in s1, BitQubits(arg, a))
    requires s3 == FlipIf(s2, flag in s2, BitQubits(arg, x))
    ensures forall y :: y in s3 <==>
      (((y in b) != (o && y == flag)) != (ctl in b && y in BitQubits(arg, a))) != (o && y in BitQubits(arg, x))
    ensures Val(s3, arg) == Addend(|q|, m, a, ctl in b, o) && Val(s3, q) == Val(b, q)
    ensures anc !in s3 && (flag in s3 <==> o) && (ctl in s3 <==> ctl in b)
  {
    hide Val, Bit;
    BitQubitsWithin(arg, a);
    BitQubitsWithin(arg, x);
    hide BitQubits;
    assert flag in s2 <==> o;
    forall i | 0 <= i < |arg|
      ensures arg[i] in s3 <==> (arg[i] in b) != ((ctl in b && arg[i] in BitQubits(arg, a)) != (o && arg[i] in BitQubits(arg, x))) {
      assert arg[i] in arg;
    }
    ArgHolds(b, s3, arg, a, x, ctl in b, o);
    forall i | 0 <= i < |q| ensures q[i] in s3 <==> q[i] in b {
      assert q[i] in q && q[i] !in arg;
    }
    ValFrame(b, s3, q);
  }

  /** After the addition the xors are undone; the flag still holds the overflow. */
  lemma StageUndo(b: Bits, s3: Bits, s4: Bits, s5: Bits, s6: Bits, q: Register, a: nat, x: nat, ctl: Qubit,
                  arg: Register, flag: Qubit, anc: Qubit, o: bool)
    requires ModLayout(q, arg, ctl, flag, anc)
    requires forall y :: y in s3 <==>
      (((y in b) != (o && y == flag)) != (ctl in b && y in BitQubits(arg, a))) != (o && y in BitQubits(arg, x))
    requires SameExcept(s3, s4, q) && (flag in s3 <==> o) && (ctl in s3 <==> ctl in b)
    requires s5 == FlipIf(s4, flag in s4, BitQubits(arg, x))
    requires s6 == FlipIf(s5, ctl in s5, BitQubits(arg, a))
    ensures forall y :: y !in q ==> (y in s6 <==> (y in b) != (o && y == flag))
    ensures forall i :: 0 <= i < |q| ==> (q[i] in s6 <==> q[i] in s4)
  {
    BitQubitsWithin(arg, a);
    BitQubitsWithin(arg, x);
    hide BitQubits;
    assert flag in s4 <==> o;
    assert ctl in s5 <==> ctl in b;
    forall i | 0 <= i < |q| ensures q[i] in s6 <==> q[i] in s4 {
      assert q[i] !in arg;
    }
  }

  /** The second comparison clears the flag. */
  lemma StageClear(b: Bits, s6: Bits, s7: Bits, s8: Bits, q: Register, a: nat, ctl: Qubit,
                   arg: Register, flag: Qubit, anc: Qubit, o: bool)
    requires ModLayout(q, arg, ctl, flag, anc) && Clean(b, arg, flag, anc)
    requires forall y :: y !in q ==> (y in s6 <==> (y in b) != (o && y == flag))
    requires o == (ctl in b && Val(s6, q) < a)
    requires s7 == Toggle(s6, ctl in s6, flag)
    requires Clear(s7, arg) ==> s8 == Toggle(s7, ctl in s7 && Val(s7, q) >= a, flag)
    ensures SameExcept(b, s8, q) && Val(s8, q) == Val(s6, q)
  {
    hide Val;
    assert Clear(s7, arg) by {
      forall i | 0 <= i < |arg| ensures arg[i] !in s7 {
        assert arg[i] !in q;
      }
    }
    ValFrame(s7, s6, q) by {
      forall i | 0 <= i < |q| ensures q[i] in s7 <==> q[i] in s6 { assert q[i] in q; }
    }
    ValFrame(s8, s6, q) by {
      forall i | 0 <= i < |q| ensures q[i] in s8 <==> q[i] in s6 { assert q[i] in q; }
    }
  }

  /** One basis state through all the stages of `mod_add`. */
  lemma ModAddStages(b: Bits, s1: Bits, s2: Bits, s3: Bits, s4: Bits, s5: Bits, s6: Bits, s7: Bits, s8: Bits,
                     q: Register, a: nat, x: nat, ctl: Qubit, m: nat, arg: Register, flag: Qubit, anc: Qubit, short: bool)
    requires ModLayout(q, arg, ctl, flag, anc) && 0 < a < m <= Pow2(|q|)
    requires x < Pow2(|q|) && Xor(x, a) == Pow2(|q|) - m + a
    requires short ==> a < Pow2(|q| - 1) && x < Pow2(|q| - 1)
    requires Clean(b, arg, flag, anc) && Val(b, q) < m
    requires s1 == Toggle(b, ctl in b && Val(b, q) >= m - a, flag)
    requires s2 == FlipIf(s1, ctl in s1, BitQubits(arg, a))
    requires s3 == FlipIf(s2, flag in s2, BitQubits(arg, x))
    requires anc !in s3 && (short ==> Val(s3, arg) < Pow2(|q| - 1)) ==> Summed(s3, s4, q, arg)
    requires s5 == FlipIf(s4, flag in s4, BitQubits(arg, x))
    requires s6 == FlipIf(s5, ctl in s5, BitQubits(arg, a))
    requires s7 == Toggle(s6, ctl in s6, flag)
    requires Clear(s7, arg) ==> s8 == Toggle(s7, ctl in s7 && Val(s7, q) >= a, flag)
    ensures ModAdded(b, s8, q, a, ctl, m)
  {
    hide Val, BitQubits, FlipIf, Toggle, SameExcept;
    assert |q| >= 1;
    hide ModLayout, Clean, Clear, Addend, Wrapped, AddMod, Xor, Pow2;
    var c := ctl in b;
    var o := c && Val(b, q) >= m - a;
    StagePrepare(b, s1, s2, s3, q, a, x, ctl, m, arg, flag, anc, o);
    ShortAddend(|q|, m, a, x, c, o, short);
    StageUndo(b, s3, s4, s5, s6, q, a, x, ctl, arg, flag, anc, o);
    ValFrame(s6, s4, q);
    StageSum(s3, s4, q, arg, m, a, c, Val(b, q));
    StageClear(b, s6, s7, s8, q, a, ctl, arg, flag, anc, o);
  }

  /** The sum modulo 2^n is the sum modulo m, and tells whether there was an overflow. */
  lemma StageSum(s3: Bits, s4: Bits, q: Register, arg: Register, m: nat, a: nat, c: bool, v: nat)
    requires 0 < a < m <= Pow2(|q|) && v < m
    requires Summed(s3, s4, q, arg) && Val(s3, q) == v && Val(s3, arg) == Addend(|q|, m, a, c, c && v >= m - a)
    ensures Val(s4, q) == if c then AddMod(v, a, m) else v
    ensures (c && v >= m - a) == (c && Val(s4, q) < a)
  {
    hide Val, Wrapped, Addend, AddMod;
    AddendMeans(|q|, m, a, c, v);
  }

  lemma ShortAddend(n: nat, m: nat, a: nat, x: nat, c: bool, o: bool, short: bool)
    requires n >= 1 && a < m <= Pow2(n) && Xor(x, a) == Pow2(n) - m + a
    requires short ==> a < Pow2(n - 1) && x < Pow2(n - 1)
    ensures short ==> Addend(n, m, a, c, o) < Pow2(n - 1)
  {
    if short {
      XorBelow(x, a, n - 1);
    }
  }

  function Joined(g1: OpSeq, g2: OpSeq, g3: OpSeq, g4: OpSeq, g5: OpSeq, g6: OpSeq, g7: OpSeq, g8: OpSeq): OpSeq {
    g1 + g2 + g3 + g4 + g5 + g6 + g7 + g8
  }

  lemma RunJoined(g1: OpSeq, g2: OpSeq, g3: OpSeq, g4: OpSeq, g5: OpSeq, g6: OpSeq, g7: OpSeq, g8: OpSeq, b: Bits)
    ensures Run(Joined(g1, g2, g3, g4, g5, g6, g7, g8), b)
      == Run(g8, Run(g7, Run(g6, Run(g5, Run(g4, Run(g3, Run(g2, Run(g1, b))))))))
  {
    hide Run;
    RunConcat(g1, g2, b);
    RunConcat(g1 + g2, g3, b);
    RunConcat(g1 + g2 + g3, g4, b);
    RunConcat(g1 + g2 + g3 + g4, g5, b);
    RunConcat(g1 + g2 + g3 + g4 + g5, g6, b);
    RunConcat(g1 + g2 + g3 + g4 + g5 + g6, g7, b);
    RunConcat(g1 + g2 + g3 + g4 + g5 + g6 + g7, g8, b);
  }

  lemma ComparesAt(seg: OpSeq, q: Register, a: nat, out: Qubit, ctl: Qubit, arg: Register, b: Bits)
    requires Compares(seg, q, a, out, ctl, arg)
    ensures AllValid(seg) && (Clear(b, arg) ==> Run(seg, b) == Toggle(b, ctl in b && Val(b, q) >= a, out))
  {
  }

  lemma XorsAt(seg: OpSeq, q: Register, a: nat, ctl: Qubit, b: Bits)
    requires XorsIn(seg, q, a, ctl)
    ensures AllValid(seg) && Run(seg, b) == FlipIf(b, ctl in b, BitQubits(q, a))
  {
  }

  lemma AddsAt(seg: OpSeq, q: Register, arg: Register, anc: Qubit, short: bool, b: Bits)
    requires |q| >= 1 && AddsPow2(seg, q, arg, anc, short)
    ensures AllValid(seg) && (anc !in b && (short ==> Val(b, arg) < Pow2(|q| - 1)) ==> Summed(b, Run(seg, b), q, arg))
  {
  }

  lemma JoinedAt(g1: OpSeq, g2: OpSeq, g3: OpSeq, g4: OpSeq, g5: OpSeq, g6: OpSeq, g8: OpSeq, b: Bits,
                 q: Register, a: nat, x: nat, ctl: Qubit, m: nat, arg: Register, flag: Qubit, anc: Qubit, short: bool)
    requires ModLayout(q, arg, ctl, flag, anc) && 0 < a < m <= Pow2(|q|)
    requires x < Pow2(|q|) && Xor(x, a) == Pow2(|q|) - m + a
    requires short ==> a < Pow2(|q| - 1) && x < Pow2(|q| - 1)
    requires Compares(g1, q, m - a, flag, ctl, arg) && XorsIn(g2, arg, a, ctl) && XorsIn(g3, arg, x, flag)
    requires AddsPow2(g4, q, arg, anc, short)
    requires XorsIn(g5, arg, x, flag) && XorsIn(g6, arg, a, ctl) && Compares(g8, q, a, flag, ctl, arg)
    requires Clean(b, arg, flag, anc) && Val(b, q) < m
    ensures ModAdded(b, Run(Joined(g1, g2, g3, g4, g5, g6, [CxOp(ctl, flag)], g8), b), q, a, ctl, m)
  {
    hide Run, OpBits, Val, Xor, Pow2, BitQubits, ModAdded, Summed, Compares, XorsIn, AddsPow2, Joined;
    var g7 := [CxOp(ctl, flag)];
    var s1 := Run(g1, b);
    var s2 := Run(g2, s1);
    var s3 := Run(g3, s2);
    var s4 := Run(g4, s3);
    var s5 := Run(g5, s4);
    var s6 := Run(g6, s5);
    var s7 := Run(g7, s6);
    var s8 := Run(g8, s7);
    RunJoined(g1, g2, g3, g4, g5, g6, g7, g8, b);
    ComparesAt(g1, q, m - a, flag, ctl, arg, b);
    XorsAt(g2, arg, a, ctl, s1);
    XorsAt(g3, arg, x, flag, s2);
    AddsAt(g4, q, arg, anc, short, s3);
    XorsAt(g5, arg, x, flag, s4);
    XorsAt(g6, arg, a, ctl, s5);
    CxMeans(ctl, flag, s6);
    RunOne(CxOp(ctl, flag), s6);
    ComparesAt(g8, q, a, flag, ctl, arg, s7);
    ModAddStages(b, s1, s2, s3, s4, s5, s6, s7, s8, q, a, x, ctl, m, arg, flag, anc, short);
  }

  lemma ModAddsJoined(g1: OpSeq, g2: OpSeq, g3: OpSeq, g4: OpSeq, g5: OpSeq, g6: OpSeq, g8: OpSeq,
                      q: Register, a: nat, x: nat, ctl: Qubit, m: nat, arg: Register, flag: Qubit, anc: Qubit, short: bool)
    requires ModLayout(q, arg, ctl, flag, anc) && 0 < a < m <= Pow2(|q|)
    requires x < Pow2(|q|) && Xor(x, a) == Pow2(|q|) - m + a
    requires short ==> a < Pow2(|q| - 1) && x < Pow2(|q| - 1)
    requires Compares(g1, q, m - a, flag, ctl, arg) && XorsIn(g2, arg, a, ctl) && XorsIn(g3, arg, x, flag)
    requires AddsPow2(g4, q, arg, anc, short)
    requires XorsIn(g5, arg, x, flag) && XorsIn(g6, arg, a, ctl) && Compares(g8, q, a, flag, ctl, arg)
    ensures ModAdds(Joined(g1, g2, g3, g4, g5, g6, [CxOp(ctl, flag)], g8), q, a, ctl, m, arg, flag, anc)
  {
    hide Run, Val, Xor, ModAdded, Compares, XorsIn, AddsPow2, Joined;
    assert |q| >= 1 && ctl != flag;
    hide Clean, ModLayout;
    JoinedValid(g1, g2, g3, g4, g5, g6, g8, q, a, x, ctl, m, arg, flag, anc, short);
    var all := Joined(g1, g2, g3, g4, g5, g6, [CxOp(ctl, flag)], g8);
    forall b: Bits ensures Clean(b, arg, flag, anc) && Val(b, q) < m ==> ModAdded(b, Run(all, b), q, a, ctl, m) {
      if Clean(b, arg, flag, anc) && Val(b, q) < m {
        JoinedAt(g1, g2, g3, g4, g5, g6, g8, b, q, a, x, ctl, m, arg, flag, anc, short);
      }
    }
  }

  lemma JoinedValid(g1: OpSeq, g2: OpSeq, g3: OpSeq, g4: OpSeq, g5: OpSeq, g6: OpSeq, g8: OpSeq,
                    q: Register, a: nat, x: nat, ctl: Qubit, m: nat, arg: Register, flag: Qubit, anc: Qubit, short: bool)
    requires |q| >= 1 && a <= m && ctl != flag
    requires Compares(g1, q, m - a, flag, ctl, arg) && XorsIn(g2, arg, a, ctl) && XorsIn(g3, arg, x, flag)
    requires AddsPow2(g4, q, arg, anc, short)
    requires XorsIn(g5, arg, x, flag) && XorsIn(g6, arg, a, ctl) && Compares(g8, q, a, flag, ctl, arg)
    ensures AllValid(Joined(g1, g2, g3, g4, g5, g6, [CxOp(ctl, flag)], g8))
  {
    CxMeans(ctl, flag, {});
    var g7 := [CxOp(ctl, flag)];
    hide Valid;
    ValidConcat(g1, g2);
    ValidConcat(g1 + g2, g3);
    ValidConcat(g1 + g2 + g3, g4);
    ValidConcat(g1 + g2 + g3 + g4, g5);
    ValidConcat(g1 + g2 + g3 + g4 + g5, g6);
    ValidConcat(g1 + g2 + g3 + g4 + g5 + g6, g7);
    ValidConcat(g1 + g2 + g3 + g4 + g5 + g6 + g7, g8);
  }

  lemma AddZero(q: Register, ctl: Qubit, m: nat, arg: Register, flag: Qubit, anc: Qubit)
    requires m > 0
    ensures ModAdds([], q, 0, ctl, m, arg, flag, anc)
  {
    forall b: Bits ensures Val(b, q) < m ==> ModAdded(b, Run([], b), q, 0, ctl, m) {
      if Val(b, q) < m {
        DivUnique(Val(b, q), m, 0, Val(b, q));
      }
    }
  }

  lemma ModLayoutParts(q: Register, arg: Register, ctl: Qubit, flag: Qubit, anc: Qubit)
    requires ModLayout(q, arg, ctl, flag, anc)
    ensures GeqLayout(q, arg, flag, ctl) && Layout(q, arg, anc, None)
  {
  }

  /** The modular adder: where its ancillas are clear and `q` holds a number below the modulus, a set
      control turns it into (q + a) mod m, and everything else, the ancillas included, is restored. */
  method ModAdd(sim: Simulator, q: Register, a: nat, ctl: Qubit, m: nat, arg: Register, flag: Qubit, anc: Qubit)
    returns (ghost seg: OpSeq)
    requires ModLayout(q, arg, ctl, flag, anc) && a < m < Pow2(|q|)
    modifies sim
    ensures sim.ops == old(sim.ops) + seg
    ensures ModAdds(seg, q, a, ctl, m, arg, flag, anc)
  {
    hide ModAdds, Compares, XorsIn, AddsPow2, Pow2, Xor;
    if a == 0 {
      AddZero(q, ctl, m, arg, flag, anc);
      return [];
    }
    ModLayoutParts(q, arg, ctl, flag, anc);
    var n := |q|;
    ghost var g1 := IntGeq(sim, q, m - a, flag, ctl, arg);
    var x := Xor(Pow2(n) - m + a, a);
    XorTwice(Pow2(n) - m + a, a);
    XorBelow(Pow2(n) - m + a, a, n);
    ghost var g2 := IntXor(sim, arg, a, ctl);
    ghost var g3 := IntXor(sim, arg, x, flag);
    var topBit := Pow2(n - 1);
    var short := a < topBit && x < topBit;
    ghost var g4 := AddArg(sim, q, arg, anc, short);
    ghost var g5 := IntXor(sim, arg, x, flag);
    ghost var g6 := IntXor(sim, arg, a, ctl);
    sim.Cx(ctl, flag);
    ghost var g8 := IntGeq(sim, q, a, flag, ctl, arg);
    ModAddsJoined(g1, g2, g3, g4, g5, g6, g8, q, a, x, ctl, m, arg, flag, anc, short);
    seg := Joined(g1, g2, g3, g4, g5, g6, [CxOp(ctl, flag)], g8);
  }

  // mod_mul

  /** Everything the multiplier uses: the register, the accumulator, the argument register of the
      adder, the control, the control of the adder, and its two ancillas. */
  ghost predicate MulLayout(q: Register, acc: Register, arg: Register, ctl: Qubit, addctl: Qubit, flag: Qubit, anc: Qubit) {
    && |q| == |acc| && ModLayout(acc, arg, addctl, flag, anc)
    && Distinct(q) && Disjoint(q, acc) && Disjoint(q, arg)
    && ctl !in q && addctl !in q && flag !in q && anc !in q
    && ctl !in acc && ctl !in arg && ctl != addctl && ctl != flag && ctl != anc
  }

  ghost predicate MulClean(b: Bits, arg: Register, addctl: Qubit, flag: Qubit, anc: Qubit) {
    Clean(b, arg, flag, anc) && addctl !in b
  }

  /** From `b` to `s`, the accumulator gains mult * r modulo m under the control. */
  ghost predicate Gained(b: Bits, s: Bits, r: Register, acc: Register, mult: nat, ctl: Qubit, m: nat)
    requires m > 0
  {
    && SameExcept(b, s, acc)
    && Val(s, acc) == if ctl in b then MulAdd(Val(b, acc), mult, Val(b, r), m) else Val(b, acc)
  }

  function MulAdd(v: nat, x: nat, y: nat, m: nat): (r: nat)
    requires m > 0
    ensures r < m
  {
    MulNat(x, y);
    (v + x * y) % m
  }

  lemma MulNat(x: nat, y: nat)
    ensures x * y >= 0
  {
  }

  ghost predicate Gains(seg: OpSeq, r: Register, acc: Register, mult: nat, ctl: Qubit, m: nat,
                        arg: Register, addctl: Qubit, flag: Qubit, anc: Qubit)
    requires m > 0
  {
    && AllValid(seg)
    && forall b: Bits :: MulClean(b, arg, addctl, flag, anc) && Val(b, acc) < m ==> Gained(b, Run(seg, b), r, acc, mult, ctl, m)
  }

  /** One more bit of the multiplicand. */
  lemma GainStep(b: Bits, s: Bits, s1: Bits, s2: Bits, s3: Bits, q: Register, i: nat, acc: Register, mult: nat, m: nat,
                 ctl: Qubit, arg: Register, addctl: Qubit, flag: Qubit, anc: Qubit)
    requires MulLayout(q, acc, arg, ctl, addctl, flag, anc) && i < |q| && m > 0
    requires MulClean(b, arg, addctl, flag, anc) && Val(b, acc) < m
    requires Gained(b, s, q[..i], acc, mult, ctl, m)
    requires s1 == Ccx(s, ctl, q[i], addctl)
    requires Clean(s1, arg, flag, anc) && Val(s1, acc) < m ==> ModAdded(s1, s2, acc, mult * Pow2(i) % m, addctl, m)
    requires s3 == Ccx(s2, ctl, q[i], addctl)
    ensures Gained(b, s3, q[..i + 1], acc, mult, ctl, m)
  {
    hide Val, MulAdd, AddMod;
    assert q[i] in q;
    var c := ctl in b && q[i] in b;
    assert q[i] !in acc;
    assert addctl in s1 <==> c;
    CleanKept(b, s1, acc, arg, addctl, flag, anc);
    ValFrame(s1, s, acc) by {
      forall j | 0 <= j < |acc| ensures acc[j] in s1 <==> acc[j] in s { assert acc[j] in acc; }
    }
    ValFrame(s3, s2, acc) by {
      forall j | 0 <= j < |acc| ensures acc[j] in s3 <==> acc[j] in s2 { assert acc[j] in acc; }
    }
    MulAddStep(Val(b, acc), mult, Val(b, q[..i]), Pow2(i), m);
    assert q[..i + 1] == q[..i] + [q[i]];
    ValSnoc(b, q[..i], q[i]);
  }

  lemma CleanKept(b: Bits, s: Bits, acc: Register, arg: Register, addctl: Qubit, flag: Qubit, anc: Qubit)
    requires ModLayout(acc, arg, addctl, flag, anc) && Clean(b, arg, flag, anc)
    requires forall x :: x !in acc && x != addctl ==> (x in s <==> x in b)
    ensures Clean(s, arg, flag, anc)
  {
    forall i | 0 <= i < |arg| ensures arg[i] !in s {
      assert arg[i] !in acc && arg[i] in arg;
    }
  }

  lemma MulAddStep(v: nat, x: nat, y: nat, p: nat, m: nat)
    requires m > 0
    ensures AddMod(MulAdd(v, x, y, m), x * p % m, m) == MulAdd(v, x, y + p, m)
  {
    MulNat(x, y);
    MulNat(x, p);
    SumOfMultiples(x, y, p);
    var w, z := v + x * y, x * p;
    assert v + x * (y + p) == w + z;
    ModAddMod(w, z, m);
  }

  /** The gates for one bit of the multiplicand. */
  function GainGates(q: Register, i: nat, ctl: Qubit, addctl: Qubit, mid: OpSeq): OpSeq
    requires i < |q|
  {
    [CcxOp(ctl, q[i], addctl)] + mid + [CcxOp(ctl, q[i], addctl)]
  }

  lemma GainRun(q: Register, i: nat, ctl: Qubit, addctl: Qubit, mid: OpSeq, s: Bits)
    requires i < |q| && AllValid(mid) && ctl != q[i] && ctl != addctl && q[i] != addctl
    ensures AllValid(GainGates(q, i, ctl, addctl, mid))
    ensures Run(GainGates(q, i, ctl, addctl, mid), s) == Ccx(Run(mid, Ccx(s, ctl, q[i], addctl)), ctl, q[i], addctl)
  {
    hide OpBits, Run;
    var g := CcxOp(ctl, q[i], addctl);
    var s1 := Ccx(s, ctl, q[i], addctl);
    CcxMeans(ctl, q[i], addctl, s);
    CcxMeans(ctl, q[i], addctl, Run(mid, s1));
    RunConcat([g] + mid, [g], s);
    RunConcat([g], mid, s);
    RunOne(g, s);
    RunOne(g, Run(mid, s1));
  }

  lemma ModAddsAt(seg: OpSeq, q: Register, a: nat, ctl: Qubit, m: nat, arg: Register, flag: Qubit, anc: Qubit, b: Bits)
    requires m > 0 && ModAdds(seg, q, a, ctl, m, arg, flag, anc)
    ensures AllValid(seg) && (Clean(b, arg, flag, anc) && Val(b, q) < m ==> ModAdded(b, Run(seg, b), q, a, ctl, m))
  {
  }

  lemma GainsStep(seg: OpSeq, mid: OpSeq, q: Register, i: nat, acc: Register, mult: nat, ctl: Qubit, m: nat,
                  arg: Register, addctl: Qubit, flag: Qubit, anc: Qubit)
    requires MulLayout(q, acc, arg, ctl, addctl, flag, anc) && i < |q| && m > 0
    requires Gains(seg, q[..i], acc, mult, ctl, m, arg, addctl, flag, anc)
    requires ModAdds(mid, acc, mult * Pow2(i) % m, addctl, m, arg, flag, anc)
    ensures Gains(seg + GainGates(q, i, ctl, addctl, mid), q[..i + 1], acc, mult, ctl, m, arg, addctl, flag, anc)
  {
    hide Run, Val, ModAdds, GainGates;
    assert q[i] in q;
    var addend := mult * Pow2(i) % m;
    var g := GainGates(q, i, ctl, addctl, mid);
    var all := seg + g;
    ModAddsAt(mid, acc, addend, addctl, m, arg, flag, anc, {});
    GainRun(q, i, ctl, addctl, mid, {});
    ValidConcat(seg, g);
    forall b: Bits ensures MulClean(b, arg, addctl, flag, anc) && Val(b, acc) < m ==> Gained(b, Run(all, b), q[..i + 1], acc, mult, ctl, m) {
      var s := Run(seg, b);
      var s1 := Ccx(s, ctl, q[i], addctl);
      ModAddsAt(mid, acc, addend, addctl, m, arg, flag, anc, s1);
      GainRun(q, i, ctl, addctl, mid, s);
      RunConcat(seg, g, b);
      if MulClean(b, arg, addctl, flag, anc) && Val(b, acc) < m {
        GainStep(b, s, s1, Run(mid, s1), Run(g, s), q, i, acc, mult, m, ctl, arg, addctl, flag, anc);
      }
    }
  }

  lemma GainsNothing(q: Register, acc: Register, mult: nat, ctl: Qubit, m: nat, arg: Register, addctl: Qubit, flag: Qubit, anc: Qubit)
    requires m > 0
    ensures Gains([], q[..0], acc, mult, ctl, m, arg, addctl, flag, anc)
  {
    forall b: Bits ensures Val(b, acc) < m ==> Gained(b, Run([], b), q[..0], acc, mult, ctl, m) {
      if Val(b, acc) < m {
        assert mult * Val(b, q[..0]) == 0;
        DivUnique(Val(b, acc), m, 0, Val(b, acc));
      }
    }
  }

  lemma ModNat(x: nat, y: nat, m: nat)
    requires m > 0
    ensures 0 <= x * y % m < m
  {
    MulNat(x, y);
  }

  /** One of the two accumulation loops of the multiplier. */
  method Gain(sim: Simulator, q: Register, acc: Register, mult: nat, ctl: Qubit, m: nat,
              arg: Register, addctl: Qubit, flag: Qubit, anc: Qubit) returns (ghost seg: OpSeq)
    requires MulLayout(q, acc, arg, ctl, addctl, flag, anc) && 0 < m < Pow2(|q|)
    modifies sim
    ensures sim.ops == old(sim.ops) + seg
    ensures Gains(seg, q, acc, mult, ctl, m, arg, addctl, flag, anc)
  {
    hide Gains, ModAdds;
    seg := [];
    GainsNothing(q, acc, mult, ctl, m, arg, addctl, flag, anc);
    for i := 0 to |q|
      invariant sim.ops == old(sim.ops) + seg
      invariant Gains(seg, q[..i], acc, mult, ctl, m, arg, addctl, flag, anc)
    {
      assert q[i] in q;
      ghost var was := sim.ops;
      ModNat(mult, Pow2(i), m);
      sim.Ccx(ctl, q[i], addctl);
      ghost var mid := ModAdd(sim, acc, mult * Pow2(i) % m, addctl, m, arg, flag, anc);
      sim.Ccx(ctl, q[i], addctl);
      GainsStep(seg, mid, q, i, acc, mult, ctl, m, arg, addctl, flag, anc);
      assert sim.ops == was + GainGates(q, i, ctl, addctl, mid);
      seg := seg + GainGates(q, i, ctl, addctl, mid);
    }
    assert q[..|q|] == q;
  }

  // The controlled swap of the register and the accumulator

  /** The first `i` qubits have been exchanged under the control. */
  ghost predicate Exchanged(b: Bits, s: Bits, q: Register, acc: Register, ctl: Qubit, i: nat)
    requires i <= |q| == |acc|
  {
    if ctl !in b then s == b else
    && (forall j :: 0 <= j < |q| ==> (q[j] in s) == if j < i then acc[j] in b else q[j] in b)
    && (forall j :: 0 <= j < |q| ==> (acc[j] in s) == if j < i then q[j] in b else acc[j] in b)
    && (forall x :: x !in q && x !in acc ==> (x in s <==> x in b))
  }

  ghost predicate Exchanges(seg: OpSeq, q: Register, acc: Register, ctl: Qubit, i: nat)
    requires i <= |q| == |acc|
  {
    AllValid(seg) && forall b: Bits :: Exchanged(b, Run(seg, b), q, acc, ctl, i)
  }

  ghost predicate SwapLayout(q: Register, acc: Register, ctl: Qubit) {
    && |q| == |acc| && Distinct(q) && Distinct(acc) && Disjoint(q, acc) && ctl !in q && ctl !in acc
  }

  lemma ExchangeStep(b: Bits, s: Bits, q: Register, acc: Register, ctl: Qubit, i: nat)
    requires SwapLayout(q, acc, ctl) && i < |q| && Exchanged(b, s, q, acc, ctl, i)
    ensures Exchanged(b, if ctl in s then SwapBits(s, q[i], acc[i]) else s, q, acc, ctl, i + 1)
  {
    assert q[i] in q && acc[i] in acc;
  }

  lemma ExchangesStep(seg: OpSeq, q: Register, acc: Register, ctl: Qubit, i: nat)
    requires SwapLayout(q, acc, ctl) && i < |q| && Exchanges(seg, q, acc, ctl, i)
    ensures Exchanges(seg + [CswapOp(ctl, q[i], acc[i])], q, acc, ctl, i + 1)
  {
    hide Exchanged, OpBits, Run;
    assert q[i] in q && acc[i] in acc;
    var o := CswapOp(ctl, q[i], acc[i]);
    var all := seg + [o];
    forall b: Bits ensures Exchanged(b, Run(all, b), q, acc, ctl, i + 1) ensures Valid(o) {
      RunSnoc(seg, o, b);
      CswapMeans(ctl, q[i], acc[i], Run(seg, b));
      ExchangeStep(b, Run(seg, b), q, acc, ctl, i);
    }
  }

  method Exchange(sim: Simulator, q: Register, acc: Register, ctl: Qubit) returns (ghost seg: OpSeq)
    requires SwapLayout(q, acc, ctl)
    modifies sim
    ensures sim.ops == old(sim.ops) + seg
    ensures Exchanges(seg, q, acc, ctl, |q|)
  {
    seg := [];
    for i := 0 to |q|
      invariant sim.ops == old(sim.ops) + seg
      invariant Exchanges(seg, q, acc, ctl, i)
    {
      assert q[i] in q && acc[i] in acc;
      ExchangesStep(seg, q, acc, ctl, i);
      sim.Cswap(ctl, q[i], acc[i]);
      seg := seg + [CswapOp(ctl, q[i], acc[i])];
    }
  }

  // The multiplier

  /** From `b` to `s`, a controlled multiplication modulo m, with everything else restored. */
  ghost predicate Multiplied(b: Bits, s: Bits, q: Register, a: nat, ctl: Qubit, m: nat)
    requires m > 0
  {
    && SameExcept(b, s, q)
    && Val(s, q) == if ctl in b then MulAdd(0, a, Val(b, q), m) else Val(b, q)
  }

  /** The gate list multiplies in place on every basis state with clear ancillas and a number below m. */
  ghost predicate Multiplies(seg: OpSeq, q: Register, a: nat, ctl: Qubit, m: nat,
                             acc: Register, arg: Register, addctl: Qubit, flag: Qubit, anc: Qubit)
    requires m > 0
  {
    && AllValid(seg)
    && forall b: Bits :: MulClean(b, arg, addctl, flag, anc) && Clear(b, acc) && Val(b, q) < m ==>
         Multiplied(b, Run(seg, b), q, a, ctl, m)
  }

  lemma ClearIsZero(b: Bits, r: Register)
    ensures Clear(b, r) <==> Val(b, r) == 0
  {
    if Clear(b, r) {
      forall i | 0 <= i < |r| ensures r[i] in b <==> Bit(0, i) { BitBelow(0, i); }
      ValOfBits(b, r, 0);
    }
    if Val(b, r) == 0 {
      forall i | 0 <= i < |r| ensures r[i] !in b {
        BitsOfVal(b, r, i);
        BitBelow(0, i);
      }
    }
  }

  lemma CleanMoves(b: Bits, s: Bits, q: Register, acc: Register, arg: Register, ctl: Qubit, addctl: Qubit, flag: Qubit, anc: Qubit)
    requires MulLayout(q, acc, arg, ctl, addctl, flag, anc) && MulClean(b, arg, addctl, flag, anc)
    requires forall x :: x !in q && x !in acc ==> (x in s <==> x in b)
    ensures MulClean(s, arg, addctl, flag, anc) && (ctl in s <==> ctl in b)
  {
    forall i | 0 <= i < |arg| ensures arg[i] !in s {
      assert arg[i] !in acc && arg[i] !in q;
    }
  }

  lemma ExchangedVals(b: Bits, s: Bits, q: Register, acc: Register, ctl: Qubit)
    requires |q| == |acc| && Exchanged(b, s, q, acc, ctl, |q|)
    ensures Val(s, q) == Val(b, if ctl in b then acc else q) && Val(s, acc) == Val(b, if ctl in b then q else acc)
    ensures forall x :: x !in q && x !in acc ==> (x in s <==> x in b)
  {
    if ctl in b {
      ValSameBits(s, q, b, acc);
      ValSameBits(s, acc, b, q);
    }
  }

  lemma {:induction false} ValSameBits(s: Bits, q: Register, b: Bits, r: Register)
    requires |q| == |r| && forall j :: 0 <= j < |q| ==> (q[j] in s <==> r[j] in b)
    ensures Val(s, q) == Val(b, r)
    decreases |q|
  {
    if q != [] {
      ValSameBits(s, q[..|q| - 1], b, r[..|r| - 1]);
    }
  }

  /** One basis state through the multiplier. */
  lemma MulStages(b: Bits, s1: Bits, s2: Bits, s3: Bits, q: Register, a: nat, x: nat, ctl: Qubit, m: nat,
                  acc: Register, arg: Register, addctl: Qubit, flag: Qubit, anc: Qubit)
    requires MulLayout(q, acc, arg, ctl, addctl, flag, anc) && m > 0 && IsNegInverse(a, x, m)
    requires MulClean(b, arg, addctl, flag, anc) && Clear(b, acc) && Val(b, q) < m
    requires MulClean(b, arg, addctl, flag, anc) && Val(b, acc) < m ==> Gained(b, s1, q, acc, a, ctl, m)
    requires Exchanged(s1, s2, q, acc, ctl, |q|)
    requires MulClean(s2, arg, addctl, flag, anc) && Val(s2, acc) < m ==> Gained(s2, s3, q, acc, x, ctl, m)
    ensures Multiplied(b, s3, q, a, ctl, m)
  {
    hide Val;
    var v := Val(b, q);
    ClearIsZero(b, acc);
    ValFrame(s1, b, q) by {
      forall j | 0 <= j < |q| ensures q[j] in s1 <==> q[j] in b { assert q[j] !in acc; }
    }
    ExchangedVals(s1, s2, q, acc, ctl);
    CleanMoves(b, s1, q, acc, arg, ctl, addctl, flag, anc);
    CleanMoves(s1, s2, q, acc, arg, ctl, addctl, flag, anc);
    Cancels(v, a, x, m);
    hide MulAdd;
    ValFrame(s3, s2, q) by {
      forall j | 0 <= j < |q| ensures q[j] in s3 <==> q[j] in s2 { assert q[j] !in acc; }
    }
    assert Val(s3, acc) == 0;
    ClearIsZero(s3, acc);
    forall y | y !in q ensures y in s3 <==> y in b {
      if y in acc {
        var j :| 0 <= j < |acc| && acc[j] == y;
      }
    }
  }

  lemma Cancels(v: nat, a: nat, x: nat, m: nat)
    requires m > 0 && IsNegInverse(a, x, m)
    ensures MulAdd(v, x, MulAdd(0, a, v, m), m) == 0
  {
    MulNat(a, v);
    NegInverseCancels(v, a, x, m);
  }

  lemma MultipliesJoined(g1: OpSeq, g2: OpSeq, g3: OpSeq, q: Register, a: nat, x: nat, ctl: Qubit, m: nat,
                         acc: Register, arg: Register, addctl: Qubit, flag: Qubit, anc: Qubit)
    requires MulLayout(q, acc, arg, ctl, addctl, flag, anc) && m > 0 && IsNegInverse(a, x, m)
    requires Gains(g1, q, acc, a, ctl, m, arg, addctl, flag, anc)
    requires Exchanges(g2, q, acc, ctl, |q|)
    requires Gains(g3, q, acc, x, ctl, m, arg, addctl, flag, anc)
    ensures Multiplies(g1 + g2 + g3, q, a, ctl, m, acc, arg, addctl, flag, anc)
  {
    hide Run, Val, Gained, Exchanged, MulLayout, MulClean;
    var all := g1 + g2 + g3;
    forall b: Bits ensures MulClean(b, arg, addctl, flag, anc) && Clear(b, acc) && Val(b, q) < m ==> Multiplied(b, Run(all, b), q, a, ctl, m) {
      RunConcat(g1 + g2, g3, b);
      RunConcat(g1, g2, b);
      var s1 := Run(g1, b);
      var s2 := Run(g2, s1);
      if MulClean(b, arg, addctl, flag, anc) && Clear(b, acc) && Val(b, q) < m {
        MulStages(b, s1, s2, Run(g3, s2), q, a, x, ctl, m, acc, arg, addctl, flag, anc);
      }
    }
  }

  /** The in-place multiplier. It fails, as `pow` does, exactly if `a` is not coprime to the modulus;
      otherwise a set control turns `q` into a * q mod m, and the accumulator and every ancilla return to zero. */
  method ModMul(sim: Simulator, q: Register, a: nat, ctl: Qubit, m: nat,
                acc: Register, arg: Register, addctl: Qubit, flag: Qubit, anc: Qubit) returns (ok: bool, ghost seg: OpSeq)
    requires MulLayout(q, acc, arg, ctl, addctl, flag, anc) && 0 < m < Pow2(|q|)
    modifies sim
    ensures sim.ops == old(sim.ops) + seg
    ensures ok <==> Coprime(a, m)
    ensures ok ==> Multiplies(seg, q, a, ctl, m, acc, arg, addctl, flag, anc)
  {
    hide Gains, Exchanges, Multiplies;
    ghost var g1 := Gain(sim, q, acc, a, ctl, m, arg, addctl, flag, anc);
    ghost var g2 := Exchange(sim, q, acc, ctl);
    NegInverseIffCoprime(a, m);
    if aInv: nat :| aInv < m && IsNegInverse(a, aInv, m) {
      ghost var g3 := Gain(sim, q, acc, aInv, ctl, m, arg, addctl, flag, anc);
      MultipliesJoined(g1, g2, g3, q, a, aInv, ctl, m, acc, arg, addctl, flag, anc);
      ok, seg := true, g1 + g2 + g3;
    } else {
      ok, seg := false, g1 + g2;
    }
  }
}
