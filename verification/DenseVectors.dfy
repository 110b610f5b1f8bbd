/** A stored sparse vector of complex amplitudes as the dense vector it stands for: an absent state has amplitude zero. */
module DenseVectors {
  import opened Angles
  import opened Wrappers
  import opened Controls
  import opened Ops
  import opened Complexes
  import opened Circuits
  import opened CircuitRules
  import opened U3Matrices
  import opened PendingGates
  import opened CompiledGates
  import opened SparseParts
  import opened SparseMeasure
  import opened SfreeUpdate

  type Stored = map<Bits, Complex>

  function Value(m: Stored, b: Bits): Complex {
    if b in m then m[b] else ZERO
  }

  function Dense(m: Stored): Vec {
    (b: Bits) => Value(m, b)
  }

  /** The stored vector is what the circuit makes of `start`, up to global phase. */
  ghost predicate Denotes(h: Circle, m: Stored, start: Vec, c: Circuit) {
    exists g :: DenotesBy(h, m, start, c, g)
  }

  ghost predicate DenotesBy(h: Circle, m: Stored, start: Vec, c: Circuit, g: Complex) {
    IsUnit(g) && forall b: Bits :: Value(m, b) == Mul(g, Amp(h, c, start, b))
  }

  /** A circuit that is the same up to global phase denotes the same vectors. */
  lemma DenotesSame(h: Circle, m: Stored, start: Vec, c: Circuit, d: Circuit)
    requires Denotes(h, m, start, c) && Same(h, c, d)
    ensures Denotes(h, m, start, d)
  {
    SameSym(h, c, d);
    var f :| SameBy(h, d, c, f);
    hide *;
    var g := FactorOf(h, m, start, c);
    forall b: Bits ensures Value(m, b) == Mul(Mul(g, f), Amp(h, d, start, b)) {
      SameByAt(h, d, c, f, start, b);
      ValueIs(h, m, start, c, g, b);
      MulAssoc(g, f, Amp(h, d, start, b));
    }
    SameByAt(h, d, c, f, start, {});
    ValueIs(h, m, start, c, g, {});
    UnitMul(g, f);
    DenotesWith(h, m, start, d, Mul(g, f));
  }

  lemma SameByAt(h: Circle, c: Circuit, d: Circuit, f: Complex, v: Vec, b: Bits)
    requires SameBy(h, c, d, f)
    ensures IsUnit(f) && Amp(h, d, v, b) == Mul(f, Amp(h, c, v, b))
  {
    hide Amp, Mul, IsUnit;
  }

  // Single-qubit gates

  /** The gate the stored vector is given (`U4` in `src/u4.rs`); a sum is dropped only if it is zero. */
  function GateOf(m: Mat): U4<Complex> {
    U4((v: bool, x: Complex) => if v then (Mul(m.d, x), Mul(m.b, x)) else (Mul(m.a, x), Mul(m.c, x)),
       (x: Complex, y: Complex) => (Add(x, y) != ZERO, Add(x, y)))
  }

  function OrZero(x: Option<Complex>): Complex {
    if x.Some? then x.value else ZERO
  }

  lemma GatedCases(m: Stored, n: Mat, q: Qubit, b: Bits)
    ensures OrZero(Gated(m, GateOf(n), q, b)) == OneGate(n, q, Dense(m), b)
  {
    hide Mul, Add;
    var x, y := Value(m, b - {q}), Value(m, b + {q});
    var (k, l) := if q in b then (n.c, n.d) else (n.a, n.b);
    Units(k);
    Units(l);
    Units(Mul(k, x));
    Units(Mul(l, y));
  }

  lemma GatedValue(m: Stored, m': Stored, n: Mat, q: Qubit, b: Bits)
    requires IsGated(m', m, GateOf(n), q)
    ensures Value(m', b) == OneGate(n, q, Dense(m), b)
  {
    hide Gated, OneGate, GateOf;
    assert Lookup(m', b) == Gated(m, GateOf(n), q, b);
    GatedCases(m, n, q, b);
  }

  lemma GateScales(n: Mat, q: Qubit, v: Vec, w: Vec, g: Complex, b: Bits)
    requires v(b - {q}) == Mul(g, w(b - {q})) && v(b + {q}) == Mul(g, w(b + {q}))
    ensures OneGate(n, q, v, b) == Mul(g, OneGate(n, q, w, b))
  {
    hide Lin, Mul;
    LinScales(g, n.a, w(b - {q}), n.b, w(b + {q}));
    LinScales(g, n.c, w(b - {q}), n.d, w(b + {q}));
  }

  lemma DenotesStepAt(h: Circle, m: Stored, start: Vec, c: Circuit, g: Complex, q: Qubit, n: Mat, b: Bits)
    requires DenotesBy(h, m, start, c, g)
    ensures OneGate(n, q, Dense(m), b) == Mul(g, Amp(h, c + [Single(q, n)], start, b))
  {
    hide *;
    var w := After(h, c, start);
    ValueIs(h, m, start, c, g, b - {q});
    ValueIs(h, m, start, c, g, b + {q});
    AfterIs(h, c, start, b - {q});
    AfterIs(h, c, start, b + {q});
    DenseIs(m, b - {q});
    DenseIs(m, b + {q});
    GateScales(n, q, Dense(m), w, g, b);
    AmpSnoc(h, c, Single(q, n), start, b);
    AmpOne(h, Single(q, n), w, b);
    StepOfGate(h, n, q, w, b);
  }

  lemma DenseIs(m: Stored, b: Bits)
    ensures Dense(m)(b) == Value(m, b)
  {
  }

  lemma StepOfGate(h: Circle, n: Mat, q: Qubit, v: Vec, b: Bits)
    ensures OneStep(h, Single(q, n), v, b) == OneGate(n, q, v, b)
  {
    hide OneGate;
  }

  lemma DenotesStep(h: Circle, m: Stored, m': Stored, start: Vec, c: Circuit, q: Qubit, n: Mat)
    requires Denotes(h, m, start, c) && forall b :: Value(m', b) == OneGate(n, q, Dense(m), b)
    ensures Denotes(h, m', start, c + [Single(q, n)])
  {
    hide *;
    var g := FactorOf(h, m, start, c);
    forall b: Bits ensures Value(m', b) == Mul(g, Amp(h, c + [Single(q, n)], start, b)) {
      DenotesStepAt(h, m, start, c, g, q, n, b);
    }
    ValueIs(h, m, start, c, g, {});
    DenotesWith(h, m', start, c + [Single(q, n)], g);
  }

  lemma DenotesGate(h: Circle, m: Stored, m': Stored, start: Vec, c: Circuit, q: Qubit, n: Mat)
    requires Denotes(h, m, start, c) && IsGated(m', m, GateOf(n), q)
    ensures Denotes(h, m', start, c + [Single(q, n)])
  {
    hide *;
    forall b ensures Value(m', b) == OneGate(n, q, Dense(m), b) {
      GatedValue(m, m', n, q, b);
    }
    DenotesStep(h, m, m', start, c, q, n);
  }

  // The queue

  /** How the stored vector turns amplitudes. */
  function Turn(h: Circle): Rot<Complex> {
    (a: Angle, x: Complex) => Mul(Phase(h, a), x)
  }

  lemma TurnsOnce(h: Circle, a: Angle, b: Angle, x: Complex)
    requires IsCircle(h)
    ensures Turn(h)(a, Turn(h)(b, x)) == Turn(h)(Wrap(a + b), x) && Turn(h)(0, x) == x
  {
    hide IsCircle, Phase;
    CircleZero(h);
    PhaseAdds(h, a, b);
    PhaseWraps(h, a + b);
    MulAssoc(Phase(h, a), Phase(h, b), x);
    Units(x);
    hide Mul, Wrap;
  }

  lemma TurnsAddUp(h: Circle)
    requires IsCircle(h)
    ensures TurnsAdd(Turn(h))
  {
    hide Turn, IsCircle, TurnsAdd, Wrap;
    forall x: Complex ensures Turn(h)(0, x) == x {
      TurnsOnce(h, 0, 0, x);
    }
    forall a: Angle, b: Angle, x: Complex ensures Turn(h)(a, Turn(h)(b, x)) == Turn(h)(Wrap(a + b), x) {
      TurnsOnce(h, a, b, x);
    }
    AddsUp(Turn(h));
  }

  lemma AddsUp(rot: Rot<Complex>)
    requires forall x: Complex :: rot(0, x) == x
    requires forall a: Angle, b: Angle, x: Complex :: rot(a, rot(b, x)) == rot(Wrap(a + b), x)
    ensures TurnsAdd(rot)
  {
    hide Wrap;
  }

  /** The last operation pulls the amplitude from where the state came from. */
  lemma AmpOfLast(h: Circle, rest: OpSeq, o: CtlOp, v: Vec, c: Bits)
    requires Valid(o)
    ensures Amp(h, Queued(rest + [o]), v, OpBits(o, c)) == Mul(Phase(h, OpArg(o, c)), Amp(h, Queued(rest), v, c))
  {
    var b := OpBits(o, c);
    OpInvolutive(o, c);
    OpArgKept(o, c);
    QueuedLast(rest, o);
    hide *;
    AmpSnoc(h, Queued(rest), Controlled(o), v, b);
    AmpOne(h, Controlled(o), After(h, Queued(rest), v), b);
    StepOfOp(h, o, After(h, Queued(rest), v), b);
    AfterIs(h, Queued(rest), v, c);
  }

  lemma QueuedLast(rest: OpSeq, o: CtlOp)
    ensures Queued(rest + [o]) == Queued(rest) + [Controlled(o)]
  {
  }

  lemma StepOfOp(h: Circle, o: CtlOp, v: Vec, b: Bits)
    ensures OneStep(h, Controlled(o), v, b) == Mul(Phase(h, OpArg(o, b)), v(OpBits(o, b)))
  {
    hide Mul, Phase, OpArg, OpBits;
  }

  /** Running the operations moves every amplitude, turned by the collected phase. */
  lemma {:induction false} AmpOfRun(h: Circle, ops: OpSeq, v: Vec, b: Bits)
    requires IsCircle(h) && AllValid(ops)
    ensures Amp(h, Queued(ops), v, Run(ops, b)) == Mul(Phase(h, RunArg(ops, b)), v(b))
    decreases |ops|
  {
    hide IsCircle, Amp, Mul, Phase, OpBits, OpArg;
    if ops == [] {
      NoneOfRun(h, v, b);
    } else {
      var n := |ops| - 1;
      var o, rest := ops[n], ops[..n];
      var c := Run(rest, b);
      AmpOfRun(h, rest, v, b);
      assert ops == rest + [o];
      AmpOfLast(h, rest, o, v, c);
      hide Queued;
      PhaseAdds(h, OpArg(o, c), RunArg(rest, b));
      MulAssoc(Phase(h, OpArg(o, c)), Phase(h, RunArg(rest, b)), v(b));
      assert OpArg(o, c) + RunArg(rest, b) == RunArg(ops, b);
    }
  }

  lemma NoneOfRun(h: Circle, v: Vec, b: Bits)
    requires IsCircle(h)
    ensures Amp(h, Queued([]), v, Run([], b)) == Mul(Phase(h, RunArg([], b)), v(b))
  {
    hide IsCircle, Mul;
    AmpNone(h, v, b);
    CircleZero(h);
    Units(v(b));
    assert Queued([]) == [];
  }

  /** A phase does not move the state, so it is the same after the operation. */
  lemma OpArgKept(o: CtlOp, b: Bits)
    ensures OpArg(o, OpBits(o, b)) == OpArg(o, b)
  {
  }

  lemma RunBackwards(ops: OpSeq, b: Bits)
    requires AllValid(ops)
    ensures Run(ops, Run(Reverse(ops), b)) == b
  {
    assert AllValid(Reverse(ops));
    RunBack(Reverse(ops), b);
    assert Reverse(Reverse(ops)) == ops;
  }

  lemma AppliedValue(h: Circle, m: Stored, m': Stored, ops: OpSeq, phase: int, d: Bits -> int, x: Bits)
    requires IsCircle(h) && AllValid(ops) && OpsApplied(m, m', ops, Turn(h), phase, d)
    ensures Mul(Phase(h, phase), Value(m', Run(ops, x))) == Mul(Phase(h, RunArg(ops, x) + d(Run(ops, x))), Value(m, x))
  {
    hide IsCircle, AllValid, Run, RunArg, Phase;
    var a := RunArg(ops, x) + d(Run(ops, x));
    PhaseWraps(h, phase);
    PhaseWraps(h, a);
    hide Wrap;
    if x !in m {
      if Run(ops, x) in m' {
        var y :| y in m && Run(ops, y) == Run(ops, x);
        RunInjective(ops, x, y);
      }
      Units(Phase(h, phase));
      Units(Phase(h, a));
    } else {
      assert Turn(h)(Wrap(phase), m'[Run(ops, x)]) == Turn(h)(Wrap(a), m[x]);
    }
    hide Mul;
  }

  lemma DenotesOpsAt(h: Circle, m: Stored, m': Stored, start: Vec, c: Circuit, ops: OpSeq, phase: int, d: Bits -> int, g: Complex, b: Bits)
    requires IsCircle(h) && AllValid(ops) && OpsApplied(m, m', ops, Turn(h), phase, d) && DenotesBy(h, m, start, c, g)
    ensures Value(m', b) == Mul(Mul(Phase(h, -phase), g), Mul(Phase(h, d(b)), Amp(h, c + Queued(ops), start, b)))
  {
    hide *;
    var x := Run(Reverse(ops), b);
    ValueIs(h, m, start, c, g, x);
    RunBackwards(ops, b);
    AppliedValue(h, m, m', ops, phase, d, x);
    AmpConcat(h, c, Queued(ops), start, b);
    AmpOfRun(h, ops, After(h, c, start), x);
    AfterIs(h, c, start, x);
    PhaseAdds(h, d(b), RunArg(ops, x));
    PhaseAdds(h, -phase, 0);
    assert -(-phase) == phase && d(b) + RunArg(ops, x) == RunArg(ops, x) + d(b);
    TurnedValue(Phase(h, phase), Phase(h, -phase), Phase(h, d(b)), Phase(h, RunArg(ops, x)), Amp(h, c, start, x), Value(m', b), g);
  }

  lemma TurnedValue(p: Complex, u: Complex, w: Complex, r: Complex, a: Complex, y: Complex, g: Complex)
    requires Mul(u, p) == ONE && Mul(p, y) == Mul(Mul(w, r), Mul(g, a))
    ensures y == Mul(Mul(u, g), Mul(w, Mul(r, a)))
  {
    hide Mul;
    MulAssoc(u, p, y);
    Units(y);
    MulAssoc(w, r, Mul(g, a));
    Swapped(r, g, a);
    Swapped(w, g, Mul(r, a));
    MulAssoc(u, g, Mul(w, Mul(r, a)));
  }

  lemma AfterIs(h: Circle, c: Circuit, v: Vec, b: Bits)
    ensures After(h, c, v)(b) == Amp(h, c, v, b)
  {
    hide Amp;
  }

  lemma StepTurned(h: Circle, c: Circuit, d: Bits -> int, start: Vec, b: Bits)
    ensures Amp(h, c + [Turned(d)], start, b) == Mul(Phase(h, d(b)), Amp(h, c, start, b))
  {
    AmpSnoc(h, c, Turned(d), start, b);
    AmpOne(h, Turned(d), After(h, c, start), b);
    AfterIs(h, c, start, b);
    hide Amp, Mul, Phase;
  }

  /** Emptying the queue into the stored vector is applying the operations, and the drift. */
  lemma DenotesOps(h: Circle, m: Stored, m': Stored, start: Vec, c: Circuit, ops: OpSeq, phase: int, d: Bits -> int)
    requires IsCircle(h) && AllValid(ops) && OpsApplied(m, m', ops, Turn(h), phase, d) && Denotes(h, m, start, c)
    ensures Denotes(h, m', start, c + Queued(ops) + [Turned(d)])
  {
    hide *;
    var g := FactorOf(h, m, start, c);
    var u := Mul(Phase(h, -phase), g);
    forall b: Bits ensures Value(m', b) == Mul(u, Amp(h, c + Queued(ops) + [Turned(d)], start, b)) {
      DenotesOpsAt(h, m, m', start, c, ops, phase, d, g, b);
      StepTurned(h, c + Queued(ops), d, start, b);
    }
    ValueIs(h, m, start, c, g, {});
    PhaseAdds(h, -phase, 0);
    UnitMul(Phase(h, -phase), g);
    DenotesWith(h, m', start, c + Queued(ops) + [Turned(d)], u);
  }

  /** Without a drift, there is nothing to turn. */
  lemma NoDriftVanishes(h: Circle, c: Circuit)
    requires IsCircle(h)
    ensures Same(h, c + [Turned(NO_DRIFT)], c)
  {
    CircleZero(h);
    hide Amp, Mul, IsCircle;
    forall v: Vec, b: Bits ensures Amp(h, c, v, b) == Mul(ONE, Amp(h, c + [Turned(NO_DRIFT)], v, b)) {
      StepTurned(h, c, NO_DRIFT, v, b);
      Units(Amp(h, c, v, b));
    }
    MinusIsUnit();
    assert SameBy(h, c + [Turned(NO_DRIFT)], c, ONE);
  }

  lemma FactorOf(h: Circle, m: Stored, start: Vec, c: Circuit) returns (g: Complex)
    requires Denotes(h, m, start, c)
    ensures DenotesBy(h, m, start, c, g)
  {
    hide DenotesBy;
    g :| DenotesBy(h, m, start, c, g);
  }

  lemma ValueIs(h: Circle, m: Stored, start: Vec, c: Circuit, g: Complex, b: Bits)
    requires DenotesBy(h, m, start, c, g)
    ensures IsUnit(g) && Value(m, b) == Mul(g, Amp(h, c, start, b))
  {
    hide Amp, Value, Mul, IsUnit;
  }

  lemma DenotesWith(h: Circle, m: Stored, start: Vec, c: Circuit, g: Complex)
    requires IsUnit(g) && forall b: Bits :: Value(m, b) == Mul(g, Amp(h, c, start, b))
    ensures Denotes(h, m, start, c)
  {
    hide Amp, Value, Mul, IsUnit;
    assert DenotesBy(h, m, start, c, g);
  }

  // Measurement

  /** What remains of a qubit after the outcome `v`, scaled. */
  function Projection(v: bool, s: Complex): Mat {
    if v then Mat(ZERO, ZERO, ZERO, s) else Mat(s, ZERO, ZERO, ZERO)
  }

  lemma MeasuredValue(m: Stored, q: Qubit, v: bool, s: Complex, f: Complex -> Complex, b: Bits)
    requires forall x :: f(x) == Mul(s, x)
    ensures Value(Measured(m, q, v, f), b) == OneGate(Projection(v, s), q, Dense(m), b)
  {
    hide Mul, Add, OneGate;
    DiagonalScales(Projection(v, s), q, Dense(m), b);
    Units(Value(m, b));
    Units(s);
  }

  /** Keeping one side of the stored vector is projecting. */
  lemma DenotesMeasured(h: Circle, m: Stored, start: Vec, c: Circuit, q: Qubit, v: bool, s: Complex, f: Complex -> Complex)
    requires Denotes(h, m, start, c) && forall x :: f(x) == Mul(s, x)
    ensures Denotes(h, Measured(m, q, v, f), start, c + [Single(q, Projection(v, s))])
  {
    var n, m' := Projection(v, s), Measured(m, q, v, f);
    forall b: Bits ensures Value(m', b) == OneGate(n, q, Dense(m), b) {
      MeasuredValue(m, q, v, s, f, b);
    }
    hide *;
    DenotesStep(h, m, m', start, c, q, n);
  }
}
