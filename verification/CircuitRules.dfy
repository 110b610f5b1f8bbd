/** When a single-qubit gate may trade places with another gate: the rules the lazy simulator lives by. */
module CircuitRules {
  import opened Angles
  import opened Controls
  import opened Ops
  import opened Complexes
  import opened Circuits

  // Kinds of single-qubit gates

  predicate IsDiagonal(m: Mat) { m.b == ZERO && m.c == ZERO }
  predicate IsAntidiagonal(m: Mat) { m.a == ZERO && m.d == ZERO }

  /** Commutes with a bit flip: a rotation about the X axis. */
  predicate IsRx(m: Mat) { m.a == m.d && m.b == m.c }

  /** A phase flip after the gate is a bit flip before it: rz after h. */
  predicate TurnsPhaseToX(m: Mat) { m.b == m.a && m.d == Minus(m.c) }

  /** A bit flip after the gate is a phase flip before it, of the state with the qubit 1, or with the qubit 0. */
  predicate TurnsXToPhase(m: Mat, inverted: bool) {
    if inverted then m.c == Minus(m.a) && m.d == m.b else m.c == m.a && m.d == Minus(m.b)
  }

  // The circle

  lemma CircleZero(h: Circle)
    requires IsCircle(h)
    ensures h(0) == ONE && Phase(h, 0) == ONE
  {
    var x := h(0);
    assert h(0 + 0) == Mul(x, x);
    UnitInverse(x);
    MulAssoc(Conj(x), x, x);
    Units(x);
  }

  lemma HalfTurnPhase(h: Circle)
    requires IsCircle(h)
    ensures Phase(h, PI) == Minus(ONE)
  {
    var p: int := PI;
    assert h(p + p) == Mul(I, I);
  }

  // Single-qubit gates on different qubits

  lemma SetOrder(b: Bits, q: Qubit, r: Qubit)
    requires q != r
    ensures (b - {q}) - {r} == (b - {r}) - {q} && (b + {q}) + {r} == (b + {r}) + {q}
    ensures (b - {q}) + {r} == (b + {r}) - {q} && (b + {q}) - {r} == (b - {r}) + {q}
  {
  }

  lemma SinglesExchange(h: Circle, q: Qubit, m: Mat, r: Qubit, n: Mat, v: Vec, b: Bits)
    requires q != r
    ensures OneStep(h, Single(r, n), Made(h, Single(q, m), v), b) == OneStep(h, Single(q, m), Made(h, Single(r, n), v), b)
  {
    SetOrder(b, q, r);
    var (x, y) := if q in b then (m.c, m.d) else (m.a, m.b);
    var (z, w) := if r in b then (n.c, n.d) else (n.a, n.b);
    hide Lin;
    LinExchange(z, w, x, y, v(b - {r} - {q}), v(b - {r} + {q}), v(b + {r} - {q}), v(b + {r} + {q}));
  }

  lemma SinglesCommute(h: Circle, q: Qubit, m: Mat, r: Qubit, n: Mat)
    requires q != r
    ensures Same(h, [Single(q, m), Single(r, n)], [Single(r, n), Single(q, m)])
  {
    forall v: Vec, b: Bits
      ensures OneStep(h, Single(r, n), Made(h, Single(q, m), v), b) == OneStep(h, Single(q, m), Made(h, Single(r, n), v), b) {
      SinglesExchange(h, q, m, r, n, v, b);
    }
    hide OneStep, Made;
    SameTwo(h, Single(q, m), Single(r, n), Single(r, n), Single(q, m));
  }

  // A gate and an operation that does not touch its qubit

  predicate Free(o: CtlOp, q: Qubit) {
    !Uses(o.ctl, q) && !o.op.Writes(q)
  }

  /** A qubit outside of an operation can be changed before or after it. */
  lemma FreeBit(o: CtlOp, q: Qubit, b: Bits, c: Bits)
    requires Free(o, q) && (c == b - {q} || c == b + {q})
    ensures Holds(o.ctl, c) == Holds(o.ctl, b) && OpArg(o, c) == OpArg(o, b)
    ensures OpBits(o, c) == if c == b - {q} then OpBits(o, b) - {q} else OpBits(o, b) + {q}
    ensures q in OpBits(o, b) <==> q in b
  {
    assert Holds(o.ctl, c) == Holds(o.ctl, b) by {
      forall i | 0 <= i < |o.ctl| ensures o.ctl[i].qubit in c <==> o.ctl[i].qubit in b {
        assert Uses(o.ctl, o.ctl[i].qubit);
      }
    }
  }

  lemma FreeCommutes(h: Circle, q: Qubit, m: Mat, o: CtlOp)
    requires Free(o, q)
    ensures Same(h, [Single(q, m), Controlled(o)], [Controlled(o), Single(q, m)])
  {
    forall v: Vec, b: Bits
      ensures OneStep(h, Controlled(o), Made(h, Single(q, m), v), b) == OneStep(h, Single(q, m), Made(h, Controlled(o), v), b) {
      FreeBit(o, q, b, b - {q});
      FreeBit(o, q, b, b + {q});
      var c := OpBits(o, b);
      var (x, y) := if q in b then (m.c, m.d) else (m.a, m.b);
      hide Lin, Mul, OpBits, OpArg, Free;
      LinScales(Phase(h, OpArg(o, b)), x, v(c - {q}), y, v(c + {q}));
    }
    hide OneStep, Made;
    SameTwo(h, Single(q, m), Controlled(o), Controlled(o), Single(q, m));
  }

  // Diagonal and antidiagonal gates

  /** A diagonal gate only scales. */
  lemma DiagonalScales(m: Mat, q: Qubit, v: Vec, b: Bits)
    requires IsDiagonal(m)
    ensures OneGate(m, q, v, b) == Mul(if q in b then m.d else m.a, v(b))
  {
    assert if q in b then b + {q} == b else b - {q} == b;
    Units(v(b - {q}));
    Units(v(b + {q}));
    Units(Mul(m.a, v(b)));
    Units(Mul(m.d, v(b)));
  }

  lemma AntidiagonalFlips(m: Mat, q: Qubit, v: Vec, b: Bits)
    requires IsAntidiagonal(m)
    ensures OneGate(m, q, v, b) == Mul(if q in b then m.c else m.b, v(Flip(b, {q})))
  {
    assert if q in b then b - {q} == Flip(b, {q}) else b + {q} == Flip(b, {q});
    var x := v(Flip(b, {q}));
    Units(v(b - {q}));
    Units(v(b + {q}));
    Units(Mul(m.b, x));
    Units(Mul(m.c, x));
  }

  lemma SparedKept(o: CtlOp, q: Qubit, b: Bits)
    requires !o.op.Writes(q)
    ensures q in OpBits(o, b) <==> q in b
  {
  }

  lemma DiagonalCommutes(h: Circle, q: Qubit, m: Mat, o: CtlOp)
    requires IsDiagonal(m) && !o.op.Writes(q)
    ensures Same(h, [Single(q, m), Controlled(o)], [Controlled(o), Single(q, m)])
  {
    forall v: Vec, b: Bits
      ensures OneStep(h, Controlled(o), Made(h, Single(q, m), v), b) == OneStep(h, Single(q, m), Made(h, Controlled(o), v), b) {
      SparedKept(o, q, b);
      DiagonalScales(m, q, v, OpBits(o, b));
      DiagonalScales(m, q, Made(h, Controlled(o), v), b);
      hide OneGate, OpBits, OpArg, Mul;
      Swapped(Phase(h, OpArg(o, b)), if q in b then m.d else m.a, v(OpBits(o, b)));
    }
    hide OneStep, Made;
    SameTwo(h, Single(q, m), Controlled(o), Controlled(o), Single(q, m));
  }

  /** The control with the item for `q`, if any, inverted. */
  function InvertAt(c: Control, q: Qubit): (r: Control)
    ensures |r| == |c|
  {
    seq(|c|, i requires 0 <= i < |c| => if c[i].qubit == q then c[i].Invert() else c[i])
  }

  lemma InvertedHolds(c: Control, q: Qubit, b: Bits)
    ensures Holds(InvertAt(c, q), Flip(b, {q})) <==> Holds(c, b)
    ensures forall p :: Uses(InvertAt(c, q), p) <==> Uses(c, p)
    ensures ValidControl(InvertAt(c, q)) == ValidControl(c)
  {
    var d := InvertAt(c, q);
    forall i | 0 <= i < |c| ensures (d[i].qubit in Flip(b, {q}) <==> d[i].value) <==> (c[i].qubit in b <==> c[i].value) {
    }
    forall p ensures Uses(d, p) <==> Uses(c, p) {
      if Uses(c, p) {
        var i :| 0 <= i < |c| && c[i].qubit == p;
        assert d[i].qubit == p;
      }
    }
  }

  lemma InvertedOp(o: CtlOp, q: Qubit, b: Bits)
    requires !o.op.Writes(q)
    ensures var o' := CtlOp(InvertAt(o.ctl, q), o.op);
      OpBits(o', Flip(b, {q})) == Flip(OpBits(o, b), {q}) && OpArg(o', Flip(b, {q})) == OpArg(o, b)
  {
    InvertedHolds(o.ctl, q, b);
  }

  lemma AntidiagonalInverts(h: Circle, q: Qubit, m: Mat, o: CtlOp)
    requires IsAntidiagonal(m) && !o.op.Writes(q)
    ensures Same(h, [Single(q, m), Controlled(o)], [Controlled(CtlOp(InvertAt(o.ctl, q), o.op)), Single(q, m)])
  {
    var o' := CtlOp(InvertAt(o.ctl, q), o.op);
    forall v: Vec, b: Bits
      ensures OneStep(h, Controlled(o), Made(h, Single(q, m), v), b) == OneStep(h, Single(q, m), Made(h, Controlled(o'), v), b) {
      SparedKept(o, q, b);
      AntidiagonalFlips(m, q, v, OpBits(o, b));
      AntidiagonalFlips(m, q, Made(h, Controlled(o'), v), b);
      InvertedOp(o, q, b);
      hide OneGate, OpBits, OpArg, InvertAt, Mul;
      Swapped(Phase(h, OpArg(o, b)), if q in b then m.c else m.b, v(Flip(OpBits(o, b), {q})));
    }
    hide OneStep, Made;
    SameTwo(h, Single(q, m), Controlled(o), Controlled(o'), Single(q, m));
  }

  // Gates on the target of a bit flip

  /** A controlled bit flip, on a qubit that its control does not use. */
  predicate IsFlip(o: CtlOp, q: Qubit) {
    o.op == X(q) && !Uses(o.ctl, q)
  }

  lemma FlipReads(h: Circle, o: CtlOp, q: Qubit, v: Vec, b: Bits)
    requires IsCircle(h) && IsFlip(o, q)
    ensures OneOp(h, o, v, b) == v(if Holds(o.ctl, b) then Flip(b, {q}) else b)
  {
    hide IsCircle;
    CircleZero(h);
    Units(v(OpBits(o, b)));
  }

  lemma ControlIgnores(c: Control, q: Qubit, b: Bits)
    requires !Uses(c, q)
    ensures Holds(c, b - {q}) == Holds(c, b) && Holds(c, b + {q}) == Holds(c, b) && Holds(c, Flip(b, {q})) == Holds(c, b)
  {
    forall i | 0 <= i < |c| ensures c[i].qubit != q {
      assert Uses(c, c[i].qubit);
    }
  }

  /** The gate reads both values of its qubit; flipping the qubit first exchanges what it reads. */
  lemma GateAfterFlip(h: Circle, o: CtlOp, q: Qubit, m: Mat, v: Vec, b: Bits)
    requires IsCircle(h) && IsFlip(o, q)
    ensures var (x, y) := if q in b then (m.c, m.d) else (m.a, m.b);
      OneGate(m, q, Made(h, Controlled(o), v), b)
      == if Holds(o.ctl, b) then Lin(x, v(b + {q}), y, v(b - {q})) else Lin(x, v(b - {q}), y, v(b + {q}))
  {
    hide IsCircle;
    FlipReads(h, o, q, v, b - {q});
    FlipReads(h, o, q, v, b + {q});
    ControlIgnores(o.ctl, q, b);
    assert Flip(b - {q}, {q}) == b + {q} && Flip(b + {q}, {q}) == b - {q};
    hide OneOp, Lin;
  }

  /** Flipping after the gate reads the other row of the matrix. */
  lemma FlipAfterGate(h: Circle, o: CtlOp, q: Qubit, m: Mat, v: Vec, b: Bits)
    requires IsCircle(h) && IsFlip(o, q)
    ensures var (x, y) := if (q in b) != Holds(o.ctl, b) then (m.c, m.d) else (m.a, m.b);
      OneOp(h, o, Made(h, Single(q, m), v), b) == Lin(x, v(b - {q}), y, v(b + {q}))
  {
    hide IsCircle;
    FlipReads(h, o, q, Made(h, Single(q, m), v), b);
    assert Flip(b, {q}) - {q} == b - {q} && Flip(b, {q}) + {q} == b + {q};
    hide OneOp, Lin;
  }

  lemma LinSwaps(a: Complex, x: Complex, b: Complex, y: Complex)
    ensures Lin(a, x, b, y) == Lin(b, y, a, x)
  {
    AddCommutes(Mul(a, x), Mul(b, y));
    hide Mul;
  }

  lemma RxCommutes(h: Circle, q: Qubit, m: Mat, o: CtlOp)
    requires IsCircle(h) && IsRx(m) && IsFlip(o, q)
    ensures Same(h, [Single(q, m), Controlled(o)], [Controlled(o), Single(q, m)])
  {
    hide IsCircle;
    forall v: Vec, b: Bits
      ensures OneStep(h, Controlled(o), Made(h, Single(q, m), v), b) == OneStep(h, Single(q, m), Made(h, Controlled(o), v), b) {
      FlipAfterGate(h, o, q, m, v, b);
      GateAfterFlip(h, o, q, m, v, b);
      hide Lin, OneOp, OneGate;
      LinSwaps(m.a, v(b - {q}), m.b, v(b + {q}));
      LinSwaps(m.b, v(b - {q}), m.a, v(b + {q}));
    }
    hide OneStep, Made;
    SameTwo(h, Single(q, m), Controlled(o), Controlled(o), Single(q, m));
  }

  // Gates that turn phase flips into bit flips and back

  /** The control of `o` extended by an item for `q`. */
  ghost predicate Extends(c: Control, d: Control, q: Qubit, value: bool) {
    !Uses(c, q) && forall b: Bits :: Holds(d, b) <==> Holds(c, b) && ((q in b) == value)
  }

  lemma PhaseFlip(h: Circle, c: Control, d: Control, q: Qubit, value: bool, v: Vec, b: Bits)
    requires IsCircle(h) && Extends(c, d, q, value)
    ensures OneOp(h, CtlOp(d, Gphase(PI)), v, b) == if Holds(c, b) && ((q in b) == value) then Minus(v(b)) else v(b)
  {
    hide IsCircle;
    assert Holds(d, b) <==> Holds(c, b) && ((q in b) == value);
    CircleZero(h);
    HalfTurnPhase(h);
    Units(v(b));
    hide Mul;
  }

  lemma LinMinus(a: Complex, x: Complex, b: Complex, y: Complex)
    ensures Lin(a, x, Minus(b), y) == Lin(a, x, b, Minus(y)) && Lin(Minus(a), x, b, y) == Lin(a, Minus(x), b, y)
    ensures Lin(Minus(a), x, Minus(b), y) == Minus(Lin(a, x, b, y))
    ensures Minus(Minus(b)) == b
  {
    MinusMul(a, x);
    MinusMul(b, y);
    MinusMul(Mul(a, x), Mul(b, y));
    Units(b);
  }

  lemma PhaseThenGate(h: Circle, c: Control, d: Control, q: Qubit, value: bool, m: Mat, v: Vec, b: Bits)
    requires IsCircle(h) && Extends(c, d, q, value)
    ensures var (x, y) := if q in b then (m.c, m.d) else (m.a, m.b);
      OneGate(m, q, Made(h, Controlled(CtlOp(d, Gphase(PI))), v), b)
      == if !Holds(c, b) then Lin(x, v(b - {q}), y, v(b + {q}))
         else if value then Lin(x, v(b - {q}), y, Minus(v(b + {q}))) else Lin(x, Minus(v(b - {q})), y, v(b + {q}))
  {
    hide IsCircle;
    PhaseFlip(h, c, d, q, value, v, b - {q});
    PhaseFlip(h, c, d, q, value, v, b + {q});
    ControlIgnores(c, q, b);
    hide OneOp, Lin, Extends;
  }

  /** CX after h is CZ before it; the control on the target qubit is inverted where an x came first. */
  lemma XBecomesPhase(h: Circle, q: Qubit, m: Mat, c: Control, d: Control, inverted: bool)
    requires IsCircle(h) && TurnsXToPhase(m, inverted) && Extends(c, d, q, !inverted)
    ensures Same(h, [Single(q, m), Controlled(CtlOp(c, X(q)))], [Controlled(CtlOp(d, Gphase(PI))), Single(q, m)])
  {
    hide IsCircle;
    var o, o' := CtlOp(c, X(q)), CtlOp(d, Gphase(PI));
    forall v: Vec, b: Bits
      ensures OneStep(h, Controlled(o), Made(h, Single(q, m), v), b) == OneStep(h, Single(q, m), Made(h, Controlled(o'), v), b) {
      FlipAfterGate(h, o, q, m, v, b);
      PhaseThenGate(h, c, d, q, !inverted, m, v, b);
      var x, y := v(b - {q}), v(b + {q});
      LinMinus(m.a, x, m.b, y);
      LinMinus(m.c, x, m.d, y);
      hide Lin, OneOp, OneGate, Minus, Extends;
    }
    hide OneStep, Made;
    SameTwo(h, Single(q, m), Controlled(o), Controlled(o'), Single(q, m));
  }

  /** CZ after h; rz is CX before it. */
  lemma PhaseBecomesX(h: Circle, q: Qubit, m: Mat, c: Control, d: Control)
    requires IsCircle(h) && TurnsPhaseToX(m) && Extends(c, d, q, true)
    ensures Same(h, [Single(q, m), Controlled(CtlOp(d, Gphase(PI)))], [Controlled(CtlOp(c, X(q))), Single(q, m)])
  {
    hide IsCircle;
    var o, o' := CtlOp(d, Gphase(PI)), CtlOp(c, X(q));
    forall v: Vec, b: Bits
      ensures OneStep(h, Controlled(o), Made(h, Single(q, m), v), b) == OneStep(h, Single(q, m), Made(h, Controlled(o'), v), b) {
      PhaseFlip(h, c, d, q, true, Made(h, Single(q, m), v), b);
      GateAfterFlip(h, o', q, m, v, b);
      var x, y := v(b - {q}), v(b + {q});
      LinMinus(m.c, x, m.c, y);
      LinMinus(m.c, y, m.c, x);
      LinSwaps(m.a, x, m.a, y);
      MinusSwaps(m.c, x, y);
      hide Lin, OneOp, Minus, Extends;
    }
    hide OneStep, Made;
    SameTwo(h, Single(q, m), Controlled(o), Controlled(o'), Single(q, m));
  }

  lemma MinusSwaps(c: Complex, x: Complex, y: Complex)
    ensures Minus(Lin(c, x, Minus(c), y)) == Lin(c, y, Minus(c), x)
  {
    MinusMul(c, x);
    MinusMul(c, y);
    MinusMul(Mul(c, x), Minus(Mul(c, y)));
    Units(Mul(c, y));
    AddCommutes(Minus(Mul(c, x)), Mul(c, y));
    hide Mul;
  }

  // Gates as operations

  function RzMat(h: Circle, a: int): Mat {
    Mat(ONE, ZERO, ZERO, Phase(h, a))
  }

  const XMat := Mat(ZERO, ONE, ONE, ZERO)

  /** The second matrix times the first. */
  function Times(n: Mat, m: Mat): Mat {
    Mat(Lin(n.a, m.a, n.b, m.c), Lin(n.a, m.b, n.b, m.d), Lin(n.c, m.a, n.d, m.c), Lin(n.c, m.b, n.d, m.d))
  }

  function ScaleMat(g: Complex, m: Mat): Mat {
    Mat(Mul(g, m.a), Mul(g, m.b), Mul(g, m.c), Mul(g, m.d))
  }

  /** The matrices are the same up to global phase. */
  ghost predicate Alike(m: Mat, n: Mat) {
    exists g :: IsUnit(g) && n == ScaleMat(g, m)
  }

  lemma SameOne(h: Circle, f: Gate, g: Gate)
    requires forall v: Vec, b: Bits :: OneStep(h, g, v, b) == OneStep(h, f, v, b)
    ensures Same(h, [f], [g])
  {
    hide Amp, OneStep;
    forall v: Vec, b: Bits ensures Amp(h, [g], v, b) == Mul(ONE, Amp(h, [f], v, b)) {
      AmpOne(h, f, v, b);
      AmpOne(h, g, v, b);
      Units(Amp(h, [f], v, b));
      hide Mul;
    }
    assert SameBy(h, [f], [g], ONE);
  }

  /** Two gates on one qubit are their product. */
  lemma SinglesMultiply(h: Circle, q: Qubit, m: Mat, n: Mat)
    ensures Same(h, [Single(q, m), Single(q, n)], [Single(q, Times(n, m))])
  {
    hide Amp;
    forall v: Vec, b: Bits
      ensures Amp(h, [Single(q, Times(n, m))], v, b) == Mul(ONE, Amp(h, [Single(q, m), Single(q, n)], v, b)) {
      AmpOne(h, Single(q, Times(n, m)), v, b);
      AmpTwo(h, Single(q, m), Single(q, n), v, b);
      var x, y := v(b - {q}), v(b + {q});
      assert (b - {q}) - {q} == b - {q} && (b - {q}) + {q} == b + {q} && (b + {q}) - {q} == b - {q} && (b + {q}) + {q} == b + {q};
      LinCombines(n.a, n.b, m.a, m.b, m.c, m.d, x, y);
      LinCombines(n.c, n.d, m.a, m.b, m.c, m.d, x, y);
      Units(Amp(h, [Single(q, m), Single(q, n)], v, b));
      hide Mul, Lin;
    }
    assert SameBy(h, [Single(q, m), Single(q, n)], [Single(q, Times(n, m))], ONE);
  }

  lemma AlikeSame(h: Circle, q: Qubit, m: Mat, n: Mat)
    requires Alike(m, n)
    ensures Same(h, [Single(q, m)], [Single(q, n)])
  {
    var g :| IsUnit(g) && n == ScaleMat(g, m);
    hide Amp;
    forall v: Vec, b: Bits ensures Amp(h, [Single(q, n)], v, b) == Mul(g, Amp(h, [Single(q, m)], v, b)) {
      AmpOne(h, Single(q, m), v, b);
      AmpOne(h, Single(q, n), v, b);
      LinScales(g, m.a, v(b - {q}), m.b, v(b + {q}));
      LinScales(g, m.c, v(b - {q}), m.d, v(b + {q}));
      hide Mul, Lin;
    }
    assert SameBy(h, [Single(q, m)], [Single(q, n)], g);
  }

  function PhaseOp(q: Qubit, value: bool, a: Angle): CtlOp {
    CtlOp([ControlItem(q, value)], Gphase(a))
  }

  function FlipOp(q: Qubit): CtlOp {
    CtlOp([], X(q))
  }

  /** A phase under one control item is a diagonal gate. */
  lemma PhaseIsDiagonal(h: Circle, q: Qubit, value: bool, a: Angle)
    requires IsCircle(h)
    ensures Same(h, [Controlled(PhaseOp(q, value, a))],
                 [Single(q, if value then Mat(ONE, ZERO, ZERO, Phase(h, a)) else Mat(Phase(h, a), ZERO, ZERO, ONE))])
  {
    hide IsCircle;
    var m := if value then Mat(ONE, ZERO, ZERO, Phase(h, a)) else Mat(Phase(h, a), ZERO, ZERO, ONE);
    var o := PhaseOp(q, value, a);
    forall v: Vec, b: Bits ensures OneStep(h, Single(q, m), v, b) == OneStep(h, Controlled(o), v, b) {
      PhaseOpScales(h, q, value, a, v, b);
      hide Phase;
      DiagonalScales(m, q, v, b);
      hide Mul, OneGate, OneOp;
    }
    hide OneStep;
    SameOne(h, Controlled(o), Single(q, m));
  }

  lemma PhaseOpScales(h: Circle, q: Qubit, value: bool, a: Angle, v: Vec, b: Bits)
    requires IsCircle(h)
    ensures OneOp(h, PhaseOp(q, value, a), v, b) == Mul(if (q in b) == value then Phase(h, a) else ONE, v(b))
  {
    hide IsCircle, Phase, Mul;
    CircleZero(h);
    PhaseOpArg(q, value, a, b);
    hide OpArg, OpBits;
  }

  lemma PhaseOpArg(q: Qubit, value: bool, a: Angle, b: Bits)
    ensures OpArg(PhaseOp(q, value, a), b) == (if (q in b) == value then a else 0) && OpBits(PhaseOp(q, value, a), b) == b
  {
    var c := [ControlItem(q, value)];
    assert Holds(c, b) <==> (c[0].qubit in b) == c[0].value;
  }

  lemma FlipIsX(h: Circle, q: Qubit)
    requires IsCircle(h)
    ensures Same(h, [Controlled(FlipOp(q))], [Single(q, XMat)])
  {
    hide IsCircle;
    var o := FlipOp(q);
    forall v: Vec, b: Bits ensures OneStep(h, Single(q, XMat), v, b) == OneStep(h, Controlled(o), v, b) {
      AntidiagonalFlips(XMat, q, v, b);
      FlipReads(h, o, q, v, b);
      Units(v(Flip(b, {q})));
      hide Mul, OneGate, OneOp;
    }
    hide OneStep;
    SameOne(h, Controlled(o), Single(q, XMat));
  }

  /** A phase without a control is a global phase. */
  lemma GlobalPhase(h: Circle, a: Angle)
    requires IsCircle(h)
    ensures Same(h, [Controlled(CtlOp([], Gphase(a)))], [])
  {
    assert IsUnit(h(2 * a));
    hide IsCircle, Amp;
    var o := CtlOp([], Gphase(a));
    forall v: Vec, b: Bits ensures Amp(h, [Controlled(o)], v, b) == Mul(Phase(h, a), Amp(h, [], v, b)) {
      AmpOne(h, Controlled(o), v, b);
      AmpNone(h, v, b);
      hide Mul;
    }
    assert SameBy(h, [], [Controlled(o)], Phase(h, a));
    SameSym(h, [], [Controlled(o)]);
  }

  lemma AmpNone(h: Circle, v: Vec, b: Bits)
    ensures Amp(h, [], v, b) == v(b)
  {
  }

  lemma IdentityVanishes(h: Circle, q: Qubit)
    ensures Same(h, [Single(q, Mat(ONE, ZERO, ZERO, ONE))], [])
  {
    var m := Mat(ONE, ZERO, ZERO, ONE);
    hide Amp;
    forall v: Vec, b: Bits ensures Amp(h, [], v, b) == Mul(ONE, Amp(h, [Single(q, m)], v, b)) {
      AmpOne(h, Single(q, m), v, b);
      AmpNone(h, v, b);
      DiagonalScales(m, q, v, b);
      Units(v(b));
      Units(Amp(h, [Single(q, m)], v, b));
      hide Mul, OneGate;
    }
    assert SameBy(h, [Single(q, m)], [], ONE);
  }
}
