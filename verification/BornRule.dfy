/** What a measurement reports is the share of the logical state, whatever waits: operations and gates that leave a qubit
    alone leave the weights of its two sides alone. */
module BornRule {
  import opened Controls
  import opened Ops
  import opened Complexes
  import opened Circuits
  import opened CircuitRules
  import opened U3Matrices
  import opened PendingGates
  import opened DenseVectors
  import opened Masses
  import U = U3Gates
  import Q = CompileQueue

  // Vectors after a gate

  /** A stored vector after one gate. */
  ghost function Stepped(h: Circle, g: Gate, m: Stored): Stored {
    match g
    case Single(q, n) =>
      var s := set b | b in m.Keys :: b - {q};
      map b | b in s + WithBit(s, q) :: OneGate(n, q, Dense(m), b)
    case Controlled(o) =>
      var s := set b | b in m.Keys :: OpBits(o, b);
      map b | b in s :: OneOp(h, o, Dense(m), b)
    case Turned(d) => map b | b in m.Keys :: Mul(Phase(h, d(b)), m[b])
  }

  /** The operation of the gate, if it is one, is valid. */
  ghost predicate IsValidGate(g: Gate) {
    g.Controlled? ==> Valid(g.o)
  }

  lemma SteppedValue(h: Circle, g: Gate, m: Stored, b: Bits)
    requires IsValidGate(g)
    ensures Value(Stepped(h, g, m), b) == OneStep(h, g, Dense(m), b)
  {
    hide Mul, Phase;
    match g
    case Single(q, n) =>
      var s := set x | x in m.Keys :: x - {q};
      if b - {q} in m || b + {q} in m {
        StoredPairs(m, s, q, b);
      } else {
        NothingCombined(n);
      }
      hide Lin;
    case Controlled(o) =>
      if b !in Stepped(h, g, m) {
        OpInvolutive(o, b);
        assert OpBits(o, b) !in m;
        Units(Phase(h, OpArg(o, b)));
      }
    case Turned(d) => Units(Phase(h, d(b)));
  }

  lemma NothingCombined(n: Mat)
    ensures Lin(n.a, ZERO, n.b, ZERO) == ZERO && Lin(n.c, ZERO, n.d, ZERO) == ZERO
  {
  }

  lemma StoredPairs(m: Stored, s: set<Bits>, q: Qubit, b: Bits)
    requires s == (set x | x in m.Keys :: x - {q}) && (b - {q} in m || b + {q} in m)
    ensures b in s + WithBit(s, q)
  {
    var c := b - {q};
    assert c - {q} == c && b + {q} - {q} == c;
    assert c in s;
    if q in b {
      assert c + {q} == b;
    } else {
      assert c == b;
    }
  }

  lemma SteppedDenotes(h: Circle, g: Gate, m: Stored, start: Vec, c: Circuit)
    requires IsValidGate(g) && Denotes(h, m, start, c)
    ensures Denotes(h, Stepped(h, g, m), start, c + [g])
  {
    hide *;
    var f := FactorOf(h, m, start, c);
    forall b: Bits ensures Value(Stepped(h, g, m), b) == Mul(f, Amp(h, c + [g], start, b)) {
      SteppedValue(h, g, m, b);
      AmpOne(h, g, Dense(m), b);
      AmpSnoc(h, c, g, start, b);
      forall x: Bits ensures Dense(m)(x) == Mul(f, After(h, c, start)(x)) {
        ValueIs(h, m, start, c, f, x);
        DenseIs(m, x);
        AfterIs(h, c, start, x);
      }
      AmpScales(h, [g], After(h, c, start), Dense(m), f, b);
    }
    ValueIs(h, m, start, c, f, {});
    DenotesWith(h, Stepped(h, g, m), start, c + [g], f);
  }

  // The sides of a qubit

  /** The gate leaves the qubit alone. */
  ghost predicate Spares(g: Gate, q: Qubit) {
    match g
    case Single(p, n) => p != q && KeepsNorm(n)
    case Controlled(o) => Valid(o) && !o.op.Writes(q)
    case Turned(d) => false
  }

  /** Where the operation takes a state, and with what weight. */
  lemma OpMoves(h: Circle, o: CtlOp, m: Stored, b: Bits)
    requires IsCircle(h) && Valid(o)
    ensures OpBits(o, OpBits(o, b)) == b && (OpBits(o, b) in Stepped(h, Controlled(o), m) <==> b in m)
    ensures NormAt(Stepped(h, Controlled(o), m))(OpBits(o, b)) == NormAt(m)(b)
  {
    OpInvolutive(o, b);
    OpStores(h, o, m, b);
    OpNorm(h, o, m, b);
    hide *;
  }

  lemma OpStores(h: Circle, o: CtlOp, m: Stored, b: Bits)
    requires Valid(o)
    ensures OpBits(o, b) in Stepped(h, Controlled(o), m) <==> b in m
  {
    hide Phase, Mul, OpBits, OpArg, Value;
    var c := OpBits(o, b);
    if c in Stepped(h, Controlled(o), m) {
      var x :| x in m.Keys && OpBits(o, x) == c;
      OpInvolutive(o, x);
      OpInvolutive(o, b);
    }
  }

  lemma OpNorm(h: Circle, o: CtlOp, m: Stored, b: Bits)
    requires IsCircle(h) && Valid(o)
    ensures NormAt(Stepped(h, Controlled(o), m))(OpBits(o, b)) == NormAt(m)(b)
  {
    OpInvolutive(o, b);
    ValidOp(o);
    hide *;
    var m', c := Stepped(h, Controlled(o), m), OpBits(o, b);
    SteppedValue(h, Controlled(o), m, c);
    StepOfOp(h, o, Dense(m), c);
    DenseIs(m, b);
    PhaseAdds(h, OpArg(o, c), 0);
    UnitKeepsNorm(Phase(h, OpArg(o, c)), Value(m, b));
    NormAtIs(m, b);
    NormAtIs(m', c);
  }

  lemma ValidOp(o: CtlOp)
    ensures IsValidGate(Controlled(o)) <==> Valid(o)
  {
    hide Valid;
  }

  lemma NormAtIs(m: Stored, b: Bits)
    ensures NormAt(m)(b) == Norm2(Value(m, b))
  {
    hide Norm2, Value;
  }

  lemma OpSpares(o: CtlOp, q: Qubit, b: Bits)
    requires !o.op.Writes(q)
    ensures q in OpBits(o, b) <==> q in b
  {
  }

  lemma OpKeepsSide(h: Circle, o: CtlOp, m: Stored, q: Qubit, v: bool)
    requires IsCircle(h) && Valid(o) && !o.op.Writes(q)
    ensures SideMass(Stepped(h, Controlled(o), m), q, v) == SideMass(m, q, v)
  {
    hide IsCircle, OpBits, OpArg, Stepped, NormAt;
    var m' := Stepped(h, Controlled(o), m);
    var to := (b: Bits) => OpBits(o, b);
    var s, t := SideStates(m.Keys, q, v), SideStates(m'.Keys, q, v);
    forall b, c | to(b) == to(c) ensures b == c {
      OpMoves(h, o, m, b);
      OpMoves(h, o, m, c);
    }
    forall b | b in s ensures to(b) in t && NormAt(m')(to(b)) == NormAt(m)(b) {
      OpMoves(h, o, m, b);
      OpSpares(o, q, b);
    }
    forall c | c in t ensures exists b :: b in s && to(b) == c {
      var b := OpBits(o, c);
      OpMoves(h, o, m, b);
      OpMoves(h, o, m, c);
      OpSpares(o, q, c);
      assert b in s && to(b) == c;
    }
    SumRelabelled(s, t, NormAt(m), NormAt(m'), to);
  }

  /** A unitary gate on another qubit. */
  lemma GateKeepsSide(h: Circle, p: Qubit, n: Mat, m: Stored, q: Qubit, v: bool)
    requires p != q && KeepsNorm(n)
    ensures SideMass(Stepped(h, Single(p, n), m), q, v) == SideMass(m, q, v)
  {
    hide KeepsNorm, Stepped, NormAt;
    var m' := Stepped(h, Single(p, n), m);
    var keys := SideStates(m.Keys + m'.Keys, q, v);
    var s := set b | b in keys :: b - {p};
    var t := s + WithBit(s, p);
    PairsCover(keys, s, p);
    forall b | b in s ensures NormAt(m')(b) + NormAt(m')(b + {p}) == NormAt(m)(b) + NormAt(m)(b + {p}) {
      PairStepped(h, p, n, m, b);
    }
    forall b | b in t ensures (q in b) == v {
      PairSide(keys, s, p, q, v, b);
    }
    Absent(m, t, q, v);
    Absent(m', t, q, v);
    SumPairs(s, p, NormAt(m'), NormAt(m));
  }

  lemma PairSide(keys: set<Bits>, s: set<Bits>, p: Qubit, q: Qubit, v: bool, b: Bits)
    requires p != q && (forall c :: c in keys ==> (q in c) == v) && s == (set c | c in keys :: c - {p}) && b in s + WithBit(s, p)
    ensures (q in b) == v
  {
    if b in s {
      var c :| c in keys && c - {p} == b;
    } else {
      var x :| x in s && x + {p} == b;
      var c :| c in keys && c - {p} == x;
    }
  }

  /** States that are not stored add nothing. */
  lemma Absent(m: Stored, t: set<Bits>, q: Qubit, v: bool)
    requires SideStates(m.Keys, q, v) <= t && forall b :: b in t ==> (q in b) == v
    ensures SumOver(t, NormAt(m)) == SideMass(m, q, v)
  {
    hide Norm2;
    SumWider(SideStates(m.Keys, q, v), t, NormAt(m));
  }

  lemma PairStepped(h: Circle, p: Qubit, n: Mat, m: Stored, b: Bits)
    requires KeepsNorm(n) && p !in b
    ensures var m' := Stepped(h, Single(p, n), m);
      NormAt(m')(b) + NormAt(m')(b + {p}) == NormAt(m)(b) + NormAt(m)(b + {p})
  {
    hide KeepsNorm, Norm2, Lin, Value, Stepped;
    var x, y := Value(m, b), Value(m, b + {p});
    SteppedValue(h, Single(p, n), m, b);
    SteppedValue(h, Single(p, n), m, b + {p});
    NormsKeptBy(n, x, y);
    assert b - {p} == b && b + {p} - {p} == b && b + {p} + {p} == b + {p};
    DenseIs(m, b);
    DenseIs(m, b + {p});
    hide Dense;
  }

  /** A gate on the qubit that only turns its amplitudes, or flips it. */
  ghost predicate TurnsOrFlips(n: Mat, flips: bool) {
    KeepsNorm(n) && if flips then IsAntidiagonal(n) else IsDiagonal(n)
  }

  lemma OwnGateNorm(h: Circle, q: Qubit, n: Mat, m: Stored, b: Bits, flips: bool)
    requires TurnsOrFlips(n, flips)
    ensures var c := if !flips then b else if q in b then b - {q} else b + {q};
      NormAt(Stepped(h, Single(q, n), m))(b) == NormAt(m)(c)
  {
    var x, y := Value(m, b - {q}), Value(m, b + {q});
    hide TurnsOrFlips, Norm2, Lin, Value, Stepped, Dense;
    OneSided(n, x, y, flips);
    SteppedValue(h, Single(q, n), m, b);
    StepOfGate(h, n, q, Dense(m), b);
    DenseIs(m, b - {q});
    DenseIs(m, b + {q});
    NormAtIs(m, b - {q});
    NormAtIs(m, b + {q});
    NormAtIs(Stepped(h, Single(q, n), m), b);
    hide NormAt;
    assert if q in b then b + {q} == b else b - {q} == b;
  }

  lemma TurnsOrFlipsIs(n: Mat, flips: bool)
    requires TurnsOrFlips(n, flips)
    ensures KeepsNorm(n) && if flips then n.a == ZERO && n.d == ZERO else n.b == ZERO && n.c == ZERO
  {
    hide KeepsNorm;
  }

  lemma OneSided(n: Mat, x: Complex, y: Complex, flips: bool)
    requires TurnsOrFlips(n, flips)
    ensures Norm2(Lin(n.a, x, n.b, y)) == Norm2(if flips then y else x)
    ensures Norm2(Lin(n.c, x, n.d, y)) == Norm2(if flips then x else y)
  {
    hide TurnsOrFlips, KeepsNorm, Norm2, Lin, Mul;
    TurnsOrFlipsIs(n, flips);
    NormsKeptBy(n, x, ZERO);
    NormsKeptBy(n, ZERO, y);
    LinZeros(n.a, x, n.b, y);
    LinZeros(n.c, x, n.d, y);
    LinZeros(n.a, x, n.b, ZERO);
    LinZeros(n.a, ZERO, n.b, y);
    LinZeros(n.c, x, n.d, ZERO);
    LinZeros(n.c, ZERO, n.d, y);
  }

  lemma LinZeros(a: Complex, x: Complex, b: Complex, y: Complex)
    ensures (a == ZERO || x == ZERO ==> Lin(a, x, b, y) == Mul(b, y)) && (b == ZERO || y == ZERO ==> Lin(a, x, b, y) == Mul(a, x))
    ensures (a == ZERO || x == ZERO) && (b == ZERO || y == ZERO) ==> Lin(a, x, b, y) == ZERO
  {
    hide Mul, Add;
    Units(x);
    Units(y);
    Units(a);
    Units(b);
    Units(ZERO);
    Units(Mul(a, x));
    Units(Mul(b, y));
  }

  lemma OwnGateSide(h: Circle, q: Qubit, n: Mat, m: Stored, v: bool, flips: bool)
    requires TurnsOrFlips(n, flips)
    ensures SideMass(Stepped(h, Single(q, n), m), q, v != flips) == SideMass(m, q, v)
  {
    hide TurnsOrFlips, Stepped, NormAt;
    var m' := Stepped(h, Single(q, n), m);
    var to := (b: Bits) => if !flips then b else if q in b then b - {q} else b + {q};
    var keys := m.Keys + m'.Keys;
    var s := set b | b in keys :: b - {q};
    var all := s + WithBit(s, q);
    PairsCover(keys, s, q);
    var t, t' := SideStates(all, q, v), SideStates(all, q, v != flips);
    forall b ensures to(to(b)) == b && (b in all ==> to(b) in all) {
      Toggled(s, q, b);
    }
    forall b, c | to(b) == to(c) ensures b == c {
      assert to(to(b)) == b && to(to(c)) == c;
    }
    forall b | b in t ensures to(b) in t' && NormAt(m')(to(b)) == NormAt(m)(b) {
      OwnGateNorm(h, q, n, m, to(b), flips);
    }
    forall c | c in t' ensures exists b :: b in t && to(b) == c {
      assert to(c) in t && to(to(c)) == c;
    }
    Absent(m, t, q, v);
    Absent(m', t', q, v != flips);
    SumRelabelled(t, t', NormAt(m), NormAt(m'), to);
  }

  lemma Toggled(s: set<Bits>, q: Qubit, b: Bits)
    requires forall c :: c in s ==> q !in c
    ensures var c := if q in b then b - {q} else b + {q};
      (if q in c then c - {q} else c + {q}) == b && (b in s + WithBit(s, q) ==> c in s + WithBit(s, q))
  {
    if q in b {
      assert b - {q} + {q} == b;
      if b in WithBit(s, q) {
        var x :| x in s && x + {q} == b;
        assert x == b - {q};
      }
    } else {
      assert b + {q} - {q} == b;
    }
  }

  // Whole circuits

  /** A stored vector after a circuit. */
  ghost function Through(h: Circle, c: Circuit, m: Stored): Stored {
    if c == [] then m else Stepped(h, c[|c| - 1], Through(h, c[..|c| - 1], m))
  }

  lemma {:induction false} ThroughDenotes(h: Circle, c: Circuit, m: Stored, start: Vec, d: Circuit)
    requires Denotes(h, m, start, d) && forall i :: 0 <= i < |c| ==> IsValidGate(c[i])
    ensures Denotes(h, Through(h, c, m), start, d + c)
  {
    hide Denotes, Stepped, IsValidGate;
    if c == [] {
      assert d + c == d;
    } else {
      var n := |c| - 1;
      ThroughDenotes(h, c[..n], m, start, d);
      SteppedDenotes(h, c[n], Through(h, c[..n], m), start, d + c[..n]);
      assert d + c[..n] + [c[n]] == d + c;
    }
  }

  lemma {:induction false} ThroughSpares(h: Circle, c: Circuit, m: Stored, q: Qubit, v: bool)
    requires IsCircle(h) && forall i :: 0 <= i < |c| ==> Spares(c[i], q)
    ensures SideMass(Through(h, c, m), q, v) == SideMass(m, q, v)
  {
    hide IsCircle, Stepped, SideMass, KeepsNorm, Valid;
    if c != [] {
      var n := |c| - 1;
      ThroughSpares(h, c[..n], m, q, v);
      assert Spares(c[n], q);
      match c[n]
      case Single(p, u) => GateKeepsSide(h, p, u, Through(h, c[..n], m), q, v);
      case Controlled(o) => OpKeepsSide(h, o, Through(h, c[..n], m), q, v);
      case _ =>
    }
  }

  lemma QueuedSpares(ops: OpSeq, q: Qubit, i: nat)
    requires AllValid(ops) && q !in Q.WritesOf(ops) && i < |ops|
    ensures Queued(ops)[i] == Controlled(ops[i]) && Spares(Queued(ops)[i], q) && IsValidGate(Queued(ops)[i])
  {
    InReads(ops, i, q);
    hide Q.WritesOf;
  }

  lemma {:induction false} SinglesSpare(h: Circle, m: Pending, q: Qubit, i: nat)
    requires IsCircle(h) && q !in m && i < |Singles(h, m)|
    ensures Spares(Singles(h, m)[i], q) && IsValidGate(Singles(h, m)[i])
    decreases |m|
  {
    hide IsCircle, Matrix, KeepsNorm;
    if m != map[] {
      var p := First(m);
      Fewer(m, p);
      GatesKeepNorm(h, m[p]);
      if i > 0 {
        SinglesSpare(h, m - {p}, q, i - 1);
      }
    }
  }

  /** Two vectors that the same circuit makes have the same weights. */
  lemma SameWeights(h: Circle, m: Stored, n: Stored, start: Vec, c: Circuit)
    requires Denotes(h, m, start, c) && Denotes(h, n, start, c)
    ensures Mass(m) == Mass(n) && forall q, v :: SideMass(m, q, v) == SideMass(n, q, v)
  {
    hide *;
    var f := FactorOf(h, m, start, c);
    var g := FactorOf(h, n, start, c);
    forall b ensures Norm2(Value(m, b)) == Norm2(Value(n, b)) {
      ValueIs(h, m, start, c, f, b);
      ValueIs(h, n, start, c, g, b);
      UnitKeepsNorm(f, Amp(h, c, start, b));
      UnitKeepsNorm(g, Amp(h, c, start, b));
    }
    SameMass(m, n);
  }

  /** A qubit that no queued operation writes, and whose waiting gate, if any, only turns its amplitudes or flips it, has in
      the logical state the weights that it has in the stored vector, on the other side if it is flipped. */
  lemma WeightsOfLogical(h: Circle, seen: Stored, start: Vec, applied: Circuit, ops: OpSeq, m: Pending, q: Qubit, flips: bool,
                         l: Stored, v: bool)
    requires IsCircle(h) && AllValid(ops) && q !in Q.WritesOf(ops)
    requires if flips then q in m && ControlGate(h, m[q], true) else q in m ==> ControlGate(h, m[q], false)
    requires Denotes(h, seen, start, applied) && Denotes(h, l, start, Log(h, applied, ops, m))
    ensures SideMass(l, q, v != flips) == SideMass(seen, q, v)
  {
    hide *;
    var queued, rest := Queued(ops), Singles(h, m - {q});
    var m1 := Through(h, queued, seen);
    forall i | 0 <= i < |queued| ensures Spares(queued[i], q) && IsValidGate(queued[i]) {
      QueuedSpares(ops, q, i);
    }
    forall i | 0 <= i < |rest| ensures Spares(rest[i], q) && IsValidGate(rest[i]) {
      SinglesSpare(h, m - {q}, q, i);
    }
    ThroughDenotes(h, queued, seen, start, applied);
    ThroughSpares(h, queued, seen, q, v);
    var c := applied + queued;
    if q in m {
      var p := Pend(h, q, m[q]);
      PendTurns(h, q, m[q], flips);
      var m2 := Stepped(h, p, m1);
      SteppedDenotes(h, p, m1, start, c);
      PendSide(h, q, m[q], m1, v, flips);
      ThroughDenotes(h, rest, m2, start, c + [p]);
      ThroughSpares(h, rest, m2, q, v != flips);
      PullFront(h, m, q);
      InLog(h, applied, ops, m, [p] + rest);
      assert c + [p] + rest == applied + queued + ([p] + rest);
      DenotesSame(h, l, start, Log(h, applied, ops, m), c + [p] + rest);
      SameWeights(h, l, Through(h, rest, m2), start, c + [p] + rest);
    } else {
      assert m - {q} == m;
      ThroughDenotes(h, rest, m1, start, c);
      ThroughSpares(h, rest, m1, q, v);
      LogIs(h, applied, ops, m);
      SameWeights(h, l, Through(h, rest, m1), start, c + rest);
    }
  }

  lemma PendTurns(h: Circle, q: Qubit, g: U.U3, flips: bool)
    requires IsCircle(h) && ControlGate(h, g, flips)
    ensures TurnsOrFlips(Matrix(h, g), flips) && IsValidGate(Pend(h, q, g))
  {
    hide IsCircle, Matrix, KeepsNorm;
    GatesKeepNorm(h, g);
  }

  lemma PendSide(h: Circle, q: Qubit, g: U.U3, m: Stored, v: bool, flips: bool)
    requires TurnsOrFlips(Matrix(h, g), flips)
    ensures SideMass(Stepped(h, Pend(h, q, g), m), q, v != flips) == SideMass(m, q, v)
  {
    hide *;
    PendIs(h, q, g);
    OwnGateSide(h, q, Matrix(h, g), m, v, flips);
  }
}
