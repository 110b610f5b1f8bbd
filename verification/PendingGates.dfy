/**
 The logical state of the lazy simulator (`src/simulator.rs`): what has been applied to the stored vector, then the
 queued operations, then one pending gate per qubit. And when parts of it may be reordered.
 */
module PendingGates {
  import opened Wrappers
  import opened Angles
  import opened Controls
  import opened Ops
  import opened Complexes
  import opened Circuits
  import opened CircuitRules
  import opened U3Matrices
  import opened U3Composition
  import opened U3Decompositions
  import U = U3Gates
  import Q = CompileQueue

  type Pending = map<Qubit, U.U3>

  function Queued(ops: OpSeq): (c: Circuit)
    ensures |c| == |ops|
  {
    seq(|ops|, i requires 0 <= i < |ops| => Controlled(ops[i]))
  }

  lemma QueuedConcat(s: OpSeq, t: OpSeq)
    ensures Queued(s + t) == Queued(s) + Queued(t)
  {
  }

  function Pend(h: Circle, q: Qubit, g: U.U3): Gate {
    Single(q, Matrix(h, g))
  }

  ghost function First(m: Pending): (q: Qubit)
    requires m != map[]
    ensures q in m
  {
    assert m.Keys != {};
    var q :| q in m;
    q
  }

  lemma Fewer(m: Pending, q: Qubit)
    requires q in m
    ensures |m - {q}| < |m|
  {
    assert (m - {q}).Keys == m.Keys - {q};
    assert |(m - {q}).Keys| == |m.Keys| - 1;
    assert |m| == |m.Keys| && |m - {q}| == |(m - {q}).Keys|;
  }

  /** The pending gates, in some order; they are on different qubits. */
  ghost function Singles(h: Circle, m: Pending): Circuit
    decreases |m|
  {
    if m == map[] then [] else
      var q := First(m);
      Fewer(m, q);
      [Pend(h, q, m[q])] + Singles(h, m - {q})
  }

  /** The circuit without the turns that rounding has added. */
  ghost function Clean(c: Circuit): Circuit {
    if c == [] then []
    else
      var g := c[|c| - 1];
      Clean(c[..|c| - 1]) + if g.Turned? then [] else [g]
  }

  predicate IsLevel(c: Circuit) {
    forall i :: 0 <= i < |c| ==> !c[i].Turned?
  }

  lemma {:induction false} CleanConcat(c: Circuit, d: Circuit)
    ensures Clean(c + d) == Clean(c) + Clean(d)
    decreases |d|
  {
    if d == [] {
      assert c + d == c;
    } else {
      var n := |d| - 1;
      CleanConcat(c, d[..n]);
      assert (c + d)[..|c + d| - 1] == c + d[..n];
    }
  }

  lemma {:induction false} CleanLevel(c: Circuit)
    ensures IsLevel(c) ==> Clean(c) == c
  {
    if c != [] {
      var n := |c| - 1;
      CleanLevel(c[..n]);
      if IsLevel(c) {
        assert !c[n].Turned?;
        assert c == c[..n] + [c[n]];
      }
    }
  }

  lemma CleanOne(c: Circuit, g: Gate)
    requires !g.Turned?
    ensures Clean(c + [g]) == Clean(c) + [g] && (IsLevel(c) ==> IsLevel(c + [g]))
  {
    var d := [g];
    assert IsLevel(d);
    CleanConcat(c, d);
    CleanLevel(d);
    hide Clean;
    LevelConcat(c, d);
  }

  lemma LevelConcat(c: Circuit, d: Circuit)
    ensures IsLevel(c) && IsLevel(d) ==> IsLevel(c + d)
  {
  }

  /** Every added turn follows queued operations with a phase off the grid, and is within their drift bound. */
  ghost predicate IsDrifting(prec: nat, c: Circuit) {
    forall i :: 0 <= i < |c| && c[i].Turned? ==> exists ops: OpSeq :: DriftsAfter(prec, c[..i], ops, c[i].d)
  }

  ghost predicate DriftsAfter(prec: nat, c: Circuit, ops: OpSeq, d: Bits -> int) {
    && |ops| <= |c| && c[|c| - |ops|..] == Queued(ops) && !AllOnGrid(ops, prec)
    && forall x :: Circ(d(x)) <= Q.Drift(ops, prec)
  }

  lemma DriftingPlain(prec: nat, c: Circuit, more: Circuit)
    requires IsDrifting(prec, c) && IsLevel(more)
    ensures IsDrifting(prec, c + more)
  {
    hide DriftsAfter;
    var d := c + more;
    forall i | |c| <= i < |d| ensures !d[i].Turned? {
      assert d[i] == more[i - |c|];
    }
    forall i | 0 <= i < |d| && d[i].Turned? ensures exists ops: OpSeq :: DriftsAfter(prec, d[..i], ops, d[i].d) {
      assert d[..i] == c[..i] && d[i] == c[i];
    }
  }

  lemma DriftingTurned(prec: nat, c: Circuit, ops: OpSeq, d: Bits -> int)
    requires IsDrifting(prec, c) && DriftsAfter(prec, c, ops, d)
    ensures IsDrifting(prec, c + [Turned(d)])
  {
    hide DriftsAfter;
    var e := c + [Turned(d)];
    forall i | 0 <= i < |e| && e[i].Turned? ensures exists o: OpSeq :: DriftsAfter(prec, e[..i], o, e[i].d) {
      if i < |c| {
        assert e[..i] == c[..i] && e[i] == c[i];
      } else {
        assert e[..i] == c;
      }
    }
  }

  /** Emptying the queue: the operations, and a turn if a phase is off the grid. */
  ghost function Emptied(prec: nat, c: Circuit, ops: OpSeq, d: Bits -> int): Circuit {
    c + Queued(ops) + if AllOnGrid(ops, prec) then [] else [Turned(d)]
  }

  lemma EmptiedIs(prec: nat, c: Circuit, ops: OpSeq, d: Bits -> int)
    requires IsDrifting(prec, c) && forall x :: Circ(d(x)) <= Q.Drift(ops, prec)
    ensures Clean(Emptied(prec, c, ops, d)) == Clean(c) + Queued(ops) && IsDrifting(prec, Emptied(prec, c, ops, d))
    ensures AllOnGrid(ops, prec) && IsLevel(c) ==> IsLevel(Emptied(prec, c, ops, d))
  {
    var q, e := Queued(ops), Emptied(prec, c, ops, d);
    assert IsLevel(q);
    hide Q.Drift, AllOnGrid, Clean, Queued, IsDrifting, Circ;
    CleanConcat(c, q);
    CleanLevel(q);
    DriftingPlain(prec, c, q);
    LevelConcat(c, q);
    if AllOnGrid(ops, prec) {
      assert e == c + q;
    } else {
      assert e == c + q + [Turned(d)];
      CleanTurned(c + q, d);
      assert (c + q)[|c + q| - |ops|..] == q;
      DriftingTurned(prec, c + q, ops, d);
    }
  }

  lemma CleanTurned(c: Circuit, d: Bits -> int)
    ensures Clean(c + [Turned(d)]) == Clean(c)
  {
    assert (c + [Turned(d)])[..|c|] == c;
  }

  /** The logical state, as a circuit on the vector the simulator started from. */
  ghost function Log(h: Circle, applied: Circuit, ops: OpSeq, m: Pending): Circuit {
    applied + Queued(ops) + Singles(h, m)
  }

  // The order of the pending gates is of no account

  lemma Exchanged(h: Circle, f: Gate, g: Gate, afterF: Circuit, afterG: Circuit, rest: Circuit)
    requires Same(h, [f, g], [g, f]) && Same(h, afterF, [g] + rest) && Same(h, afterG, [f] + rest)
    ensures Same(h, [f] + afterF, [g] + afterG)
  {
    hide *;
    SamePrefix(h, [f], afterF, [g] + rest);
    SameSuffix(h, [f, g], [g, f], rest);
    SameSym(h, afterG, [f] + rest);
    SamePrefix(h, [g], [f] + rest, afterG);
    assert [f] + ([g] + rest) == [f, g] + rest && [g] + ([f] + rest) == [g, f] + rest;
    SameTrans(h, [f] + afterF, [f, g] + rest, [g, f] + rest);
    SameTrans(h, [f] + afterF, [g, f] + rest, [g] + afterG);
  }

  /** Any pending gate can be taken first. */
  lemma {:induction false} PullFront(h: Circle, m: Pending, q: Qubit)
    requires q in m
    ensures Same(h, Singles(h, m), [Pend(h, q, m[q])] + Singles(h, m - {q}))
    decreases |m|
  {
    hide Same, Matrix;
    var p := First(m);
    if p == q {
      SameRefl(h, Singles(h, m));
    } else {
      Fewer(m, p);
      Fewer(m, q);
      PullFront(h, m - {p}, q);
      PullFront(h, m - {q}, p);
      assert m - {q} - {p} == m - {p} - {q};
      SinglesCommute(h, p, Matrix(h, m[p]), q, Matrix(h, m[q]));
      Exchanged(h, Pend(h, p, m[p]), Pend(h, q, m[q]), Singles(h, m - {p}), Singles(h, m - {q}), Singles(h, m - {p} - {q}));
    }
  }

  // Gates past the queue

  /** A gate that trades places with every operation trades places with the queue. */
  lemma {:induction false} GatePasses(h: Circle, g: Gate, ops: OpSeq)
    requires forall i :: 0 <= i < |ops| ==> Same(h, [g, Controlled(ops[i])], [Controlled(ops[i]), g])
    ensures Same(h, [g] + Queued(ops), Queued(ops) + [g])
    decreases |ops|
  {
    hide Same;
    if ops == [] {
      assert Queued(ops) == [] && [g] + Queued(ops) == [g] && Queued(ops) + [g] == [g];
      SameRefl(h, [g]);
    } else {
      var n := |ops| - 1;
      GatePasses(h, g, ops[..n]);
      assert Queued(ops) == Queued(ops[..n]) + [Controlled(ops[n])];
      OneMore(h, g, Queued(ops[..n]), Controlled(ops[n]));
    }
  }

  lemma OneMore(h: Circle, g: Gate, c: Circuit, o: Gate)
    requires Same(h, [g] + c, c + [g]) && Same(h, [g, o], [o, g])
    ensures Same(h, [g] + (c + [o]), c + [o] + [g])
  {
    hide *;
    SameSuffix(h, [g] + c, c + [g], [o]);
    SamePrefix(h, c, [g, o], [o, g]);
    assert [g] + (c + [o]) == [g] + c + [o] && c + [g] + [o] == c + [g, o] && c + [o] + [g] == c + [o, g];
    SameTrans(h, [g] + (c + [o]), c + [g, o], c + [o, g]);
  }

  lemma {:induction false} InReads(ops: OpSeq, i: nat, q: Qubit)
    requires i < |ops|
    ensures Uses(ops[i].ctl, q) ==> q in Q.ReadsOf(ops)
    ensures ops[i].op.Swap? && ops[i].op.Writes(q) ==> q in Q.ReadsOf(ops)
    ensures ops[i].op.Writes(q) ==> q in Q.WritesOf(ops)
    decreases |ops|
  {
    if i < |ops| - 1 {
      InReads(ops[..|ops| - 1], i, q);
    }
  }

  /** The gate commutes with one queued operation. */
  lemma UnblockedOne(h: Circle, ops: OpSeq, i: nat, q: Qubit, g: U.U3, prec: nat)
    requires IsCircle(h) && U.IsPlain(g, prec) && i < |ops| && !Q.IsBlocked(Q.ReadsOf(ops), Q.WritesOf(ops), q, g, prec)
    ensures Same(h, [Pend(h, q, g), Controlled(ops[i])], [Controlled(ops[i]), Pend(h, q, g)])
  {
    hide IsCircle, Same, Matrix, U.ToRzRx, Q.ReadsOf, Q.WritesOf;
    var rzRx := U.ToRzRx(g, prec);
    InReads(ops, i, q);
    var o, m := ops[i], Matrix(h, g);
    if Free(o, q) {
      FreeCommutes(h, q, m, o);
    } else {
      PlainParts(g, prec);
      hide Round;
      PartsMissing(h, g, prec);
      if rzRx.value.1 == 0 && !o.op.Writes(q) {
        DiagonalCommutes(h, q, m, o);
      } else if rzRx.value.0 == 0 && rzRx.value.1 == 0 {
        NothingPasses(h, q, g, prec, o);
      } else {
        RxCommutes(h, q, m, o);
      }
    }
  }

  /** A gate with neither part is the identity. */
  lemma NothingPasses(h: Circle, q: Qubit, g: U.U3, prec: nat, o: CtlOp)
    requires IsCircle(h) && U.IsPlain(g, prec) && U.ToRzRx(g, prec) == Some((0, 0))
    ensures Same(h, [Pend(h, q, g), Controlled(o)], [Controlled(o), Pend(h, q, g)])
  {
    hide *;
    RzRxProduct(h, g, prec);
    RzNothing(h, Matrix(h, U.Rx(0)));
    var id := Mat(ONE, ZERO, ZERO, ONE);
    RxNothing(h);
    AlikeSame(h, q, Matrix(h, g), id);
    IdentityVanishes(h, q);
    PendIs(h, q, g);
    SameTrans(h, [Pend(h, q, g)], [Single(q, id)], []);
    var p, c := [Pend(h, q, g)], [Controlled(o)];
    SameSuffix(h, p, [], c);
    SamePrefix(h, c, p, []);
    assert [] + c == c + [] && p + c == [Pend(h, q, g), Controlled(o)] && c + p == [Controlled(o), Pend(h, q, g)];
    SameSym(h, c + p, c + []);
    SameTrans(h, p + c, c + [], c + p);
  }

  lemma PendIs(h: Circle, q: Qubit, g: U.U3)
    ensures Pend(h, q, g) == Single(q, Matrix(h, g))
  {
    hide Matrix;
  }

  lemma RxNothing(h: Circle)
    requires IsCircle(h)
    ensures Matrix(h, U.Rx(0)) == Mat(ONE, ZERO, ZERO, ONE)
  {
    hide IsCircle, Euler, Phase;
    EulerAtZero(h, 0, 0);
    CircleZero(h);
    assert U.Rx(0) == U.U3(0, 0, 0);
  }

  /** The source's test is sound: a gate that is not blocked commutes with the whole queue. */
  lemma UnblockedPasses(h: Circle, ops: OpSeq, q: Qubit, g: U.U3, prec: nat)
    requires IsCircle(h) && U.IsPlain(g, prec) && !Q.IsBlocked(Q.ReadsOf(ops), Q.WritesOf(ops), q, g, prec)
    ensures Same(h, [Pend(h, q, g)] + Queued(ops), Queued(ops) + [Pend(h, q, g)])
  {
    hide *;
    forall i | 0 <= i < |ops|
      ensures Same(h, [Pend(h, q, g), Controlled(ops[i])], [Controlled(ops[i]), Pend(h, q, g)]) {
      UnblockedOne(h, ops, i, q, g, prec);
    }
    GatePasses(h, Pend(h, q, g), ops);
  }

  // Steps that leave the logical state alone

  lemma InLog(h: Circle, applied: Circuit, ops: OpSeq, m: Pending, c: Circuit)
    requires Same(h, Singles(h, m), c)
    ensures Same(h, Log(h, applied, ops, m), applied + Queued(ops) + c)
  {
    SamePrefix(h, applied + Queued(ops), Singles(h, m), c);
    hide *;
    LogIs(h, applied, ops, m);
  }

  lemma LogIs(h: Circle, applied: Circuit, ops: OpSeq, m: Pending)
    ensures Log(h, applied, ops, m) == applied + Queued(ops) + Singles(h, m)
  {
    hide Singles, Queued;
  }

  /** The first part of a pending gate, or all of it, can move to the end of the queue. */
  lemma MovesToQueue(h: Circle, applied: Circuit, ops: OpSeq, more: OpSeq, m: Pending, q: Qubit, c: Circuit, m': Pending)
    requires q in m && Same(h, [Pend(h, q, m[q])], Queued(more) + c) && Same(h, Singles(h, m'), c + Singles(h, m - {q}))
    ensures Same(h, Log(h, applied, ops, m), Log(h, applied, ops + more, m'))
  {
    hide *;
    var p, rest, pre := [Pend(h, q, m[q])], Singles(h, m - {q}), applied + Queued(ops);
    PullFront(h, m, q);
    SameSuffix(h, p, Queued(more) + c, rest);
    SameTrans(h, Singles(h, m), p + rest, Queued(more) + c + rest);
    InLog(h, applied, ops, m, Queued(more) + c + rest);
    InLog(h, applied, ops + more, m', c + rest);
    SameSym(h, Log(h, applied, ops + more, m'), applied + Queued(ops + more) + (c + rest));
    QueuedConcat(ops, more);
    assert pre + (Queued(more) + c + rest) == applied + (Queued(ops) + Queued(more)) + (c + rest);
    SameTrans(h, Log(h, applied, ops, m), pre + (Queued(more) + c + rest), Log(h, applied, ops + more, m'));
  }

  lemma AllToQueue(h: Circle, applied: Circuit, ops: OpSeq, more: OpSeq, m: Pending, q: Qubit)
    requires q in m && Same(h, [Pend(h, q, m[q])], Queued(more))
    ensures Same(h, Log(h, applied, ops, m), Log(h, applied, ops + more, m - {q}))
  {
    hide *;
    assert Queued(more) + [] == Queued(more) && [] + Singles(h, m - {q}) == Singles(h, m - {q});
    SameRefl(h, Singles(h, m - {q}));
    MovesToQueue(h, applied, ops, more, m, q, [], m - {q});
  }

  lemma PartToQueue(h: Circle, applied: Circuit, ops: OpSeq, more: OpSeq, m: Pending, q: Qubit, g: U.U3)
    requires q in m && Same(h, [Pend(h, q, m[q])], Queued(more) + [Pend(h, q, g)])
    ensures Same(h, Log(h, applied, ops, m), Log(h, applied, ops + more, m[q := g]))
  {
    hide *;
    PullFront(h, m[q := g], q);
    assert m[q := g] - {q} == m - {q};
    MovesToQueue(h, applied, ops, more, m, q, [Pend(h, q, g)], m[q := g]);
  }

  /** A pending gate that is not blocked can be applied to the stored vector at once. */
  lemma ToVector(h: Circle, applied: Circuit, ops: OpSeq, m: Pending, q: Qubit, prec: nat)
    requires IsCircle(h) && q in m && U.IsPlain(m[q], prec) && !Q.IsBlocked(Q.ReadsOf(ops), Q.WritesOf(ops), q, m[q], prec)
    ensures Same(h, Log(h, applied, ops, m), Log(h, applied + [Pend(h, q, m[q])], ops, m - {q}))
  {
    hide *;
    var p, rest, c := [Pend(h, q, m[q])], Singles(h, m - {q}), Queued(ops);
    PullFront(h, m, q);
    InLog(h, applied, ops, m, p + rest);
    UnblockedPasses(h, ops, q, m[q], prec);
    SameSym(h, p + c, c + p);
    SameInside(h, applied, c + p, p + c, rest);
    LogIs(h, applied + p, ops, m - {q});
    assert applied + c + (p + rest) == applied + (c + p) + rest && applied + (p + c) + rest == applied + p + c + rest;
    SameTrans(h, Log(h, applied, ops, m), applied + (c + p) + rest, Log(h, applied + p, ops, m - {q}));
  }

  /** The queue can be applied to the stored vector at once. */
  lemma QueueToVector(h: Circle, applied: Circuit, ops: OpSeq, m: Pending)
    ensures Log(h, applied, ops, m) == Log(h, applied + Queued(ops), [], m)
  {
    assert Queued([]) == [];
    hide Singles;
  }

  /** A gate on a qubit without a pending gate can be taken before all pending ones. */
  lemma {:induction false} PastSingles(h: Circle, m: Pending, q: Qubit, n: Mat)
    requires q !in m
    ensures Same(h, Singles(h, m) + [Single(q, n)], [Single(q, n)] + Singles(h, m))
    decreases |m|
  {
    hide Same, Matrix;
    var x := Single(q, n);
    if m == map[] {
      assert Singles(h, m) + [x] == [x] + Singles(h, m);
      SameRefl(h, [x] + Singles(h, m));
    } else {
      var p := First(m);
      Fewer(m, p);
      PastSingles(h, m - {p}, q, n);
      SinglesCommute(h, p, Matrix(h, m[p]), q, n);
      PastOne(h, Pend(h, p, m[p]), x, Singles(h, m - {p}));
    }
  }

  lemma PastOne(h: Circle, f: Gate, x: Gate, c: Circuit)
    requires Same(h, c + [x], [x] + c) && Same(h, [f, x], [x, f])
    ensures Same(h, [f] + c + [x], [x] + ([f] + c))
  {
    hide *;
    SamePrefix(h, [f], c + [x], [x] + c);
    SameSuffix(h, [f, x], [x, f], c);
    assert [f] + (c + [x]) == [f] + c + [x] && [f] + ([x] + c) == [f, x] + c && [x, f] + c == [x] + ([f] + c);
    SameTrans(h, [f] + c + [x], [f, x] + c, [x] + ([f] + c));
  }

  /** A first gate on a qubit becomes its pending gate. */
  lemma NewPending(h: Circle, applied: Circuit, ops: OpSeq, m: Pending, q: Qubit, g: U.U3)
    requires q !in m
    ensures Same(h, Log(h, applied, ops, m) + [Pend(h, q, g)], Log(h, applied, ops, m[q := g]))
  {
    hide *;
    var p, c := [Pend(h, q, g)], applied + Queued(ops);
    PendIs(h, q, g);
    PastSingles(h, m, q, Matrix(h, g));
    PullFront(h, m[q := g], q);
    assert m[q := g] - {q} == m;
    SameSym(h, Singles(h, m[q := g]), p + Singles(h, m));
    SameTrans(h, Singles(h, m) + p, p + Singles(h, m), Singles(h, m[q := g]));
    SamePrefix(h, c, Singles(h, m) + p, Singles(h, m[q := g]));
    LogIs(h, applied, ops, m);
    LogIs(h, applied, ops, m[q := g]);
    assert c + (Singles(h, m) + p) == c + Singles(h, m) + p;
  }

  /** A further gate on a qubit is composed with the pending one. */
  lemma ComposedPending(h: Circle, applied: Circuit, ops: OpSeq, m: Pending, q: Qubit, g: U.U3, c: U.U3)
    requires q in m && Alike(Times(Matrix(h, g), Matrix(h, m[q])), Matrix(h, c))
    ensures Same(h, Log(h, applied, ops, m) + [Pend(h, q, g)], Log(h, applied, ops, m[q := c]))
  {
    hide *;
    var p, x, y, rest := Pend(h, q, m[q]), Pend(h, q, g), Pend(h, q, c), Singles(h, m - {q});
    PendIs(h, q, m[q]);
    PendIs(h, q, g);
    PendIs(h, q, c);
    var product := Single(q, Times(Matrix(h, g), Matrix(h, m[q])));
    SinglesMultiply(h, q, Matrix(h, m[q]), Matrix(h, g));
    AlikeSame(h, q, Times(Matrix(h, g), Matrix(h, m[q])), Matrix(h, c));
    SameTrans(h, [p, x], [product], [y]);
    PullFront(h, m, q);
    PastSingles(h, m - {q}, q, Matrix(h, g));
    Absorbed(h, Singles(h, m), rest, p, x, y);
    PullFront(h, m[q := c], q);
    assert m[q := c] - {q} == m - {q};
    SameSym(h, Singles(h, m[q := c]), [y] + rest);
    SameTrans(h, Singles(h, m) + [x], [y] + rest, Singles(h, m[q := c]));
    var pre := applied + Queued(ops);
    SamePrefix(h, pre, Singles(h, m) + [x], Singles(h, m[q := c]));
    LogIs(h, applied, ops, m);
    LogIs(h, applied, ops, m[q := c]);
    assert pre + (Singles(h, m) + [x]) == pre + Singles(h, m) + [x];
  }

  lemma Absorbed(h: Circle, s: Circuit, rest: Circuit, p: Gate, x: Gate, y: Gate)
    requires Same(h, s, [p] + rest) && Same(h, rest + [x], [x] + rest) && Same(h, [p, x], [y])
    ensures Same(h, s + [x], [y] + rest)
  {
    hide *;
    SameSuffix(h, s, [p] + rest, [x]);
    SamePrefix(h, [p], rest + [x], [x] + rest);
    SameSuffix(h, [p, x], [y], rest);
    assert [p] + rest + [x] == [p] + (rest + [x]) && [p] + ([x] + rest) == [p, x] + rest;
    SameTrans(h, s + [x], [p] + rest + [x], [p, x] + rest);
    SameTrans(h, s + [x], [p, x] + rest, [y] + rest);
  }

  // New operations past the pending gates

  /** The operation after the circuit is another one before it. */
  ghost predicate PassesAs(h: Circle, c: Circuit, o: CtlOp, o': CtlOp) {
    Same(h, c + [Controlled(o)], [Controlled(o')] + c)
  }

  /** An operation rewritten past the pending gates can be queued. */
  lemma QueueOp(h: Circle, applied: Circuit, ops: OpSeq, m: Pending, o: CtlOp, o': CtlOp)
    requires PassesAs(h, Singles(h, m), o, o')
    ensures Same(h, Log(h, applied, ops, m) + [Controlled(o)], Log(h, applied, ops + [o'], m))
  {
    assert Queued(ops + [o']) == Queued(ops) + [Controlled(o')];
    var c, s := applied + Queued(ops), Singles(h, m);
    SamePrefix(h, c, s + [Controlled(o)], [Controlled(o')] + s);
    hide *;
    LogIs(h, applied, ops, m);
    LogIs(h, applied, ops + [o'], m);
    assert c + (s + [Controlled(o)]) == c + s + [Controlled(o)] && c + ([Controlled(o')] + s) == c + [Controlled(o')] + s;
    assert applied + (Queued(ops) + [Controlled(o')]) == c + [Controlled(o')];
  }

  /** Past one more pending gate. */
  lemma PassOne(h: Circle, m: Pending, q: Qubit, o: CtlOp, o1: CtlOp, o2: CtlOp)
    requires q in m && PassesAs(h, Singles(h, m - {q}), o, o1) && PassesAs(h, [Pend(h, q, m[q])], o1, o2)
    ensures PassesAs(h, Singles(h, m), o, o2)
  {
    var x, x1, x2, p, rest := Controlled(o), Controlled(o1), Controlled(o2), Pend(h, q, m[q]), Singles(h, m - {q});
    PullFront(h, m, q);
    hide Same, Singles, Pend;
    var s := Singles(h, m);
    SameSuffix(h, s, [p] + rest, [x]);
    SamePrefix(h, [p], rest + [x], [x1] + rest);
    SameSuffix(h, [p] + [x1], [x2] + [p], rest);
    SameSym(h, s, [p] + rest);
    SamePrefix(h, [x2], [p] + rest, s);
    assert [p] + rest + [x] == [p] + (rest + [x]) && [p] + ([x1] + rest) == [p] + [x1] + rest;
    assert [x2] + [p] + rest == [x2] + ([p] + rest);
    SameTrans(h, s + [x], [p] + rest + [x], [p] + [x1] + rest);
    SameTrans(h, s + [x], [p] + [x1] + rest, [x2] + [p] + rest);
    SameTrans(h, s + [x], [x2] + [p] + rest, [x2] + s);
  }

  lemma PassNone(h: Circle, o: CtlOp)
    ensures PassesAs(h, Singles(h, map[]), o, o)
  {
    hide Same;
    var s := Singles(h, map[]);
    assert s == [] && s + [Controlled(o)] == [Controlled(o)] && [Controlled(o)] + s == [Controlled(o)];
    SameRefl(h, [Controlled(o)]);
  }

  lemma PassGate(h: Circle, g: Gate, o: CtlOp, o': CtlOp)
    requires Same(h, [g, Controlled(o)], [Controlled(o'), g])
    ensures PassesAs(h, [g], o, o')
  {
    assert [g] + [Controlled(o)] == [g, Controlled(o)] && [Controlled(o')] + [g] == [Controlled(o'), g];
    hide Same;
  }

  /** The control with the items for these qubits inverted. */
  function InvertAll(c: Control, t: set<Qubit>): (r: Control)
    ensures |r| == |c| && forall i :: 0 <= i < |c| ==> r[i] == if c[i].qubit in t then c[i].Invert() else c[i]
  {
    seq(|c|, i requires 0 <= i < |c| => if c[i].qubit in t then c[i].Invert() else c[i])
  }

  lemma InvertAllKeeps(c: Control, t: set<Qubit>)
    ensures ValidControl(InvertAll(c, t)) == ValidControl(c) && forall q :: Uses(InvertAll(c, t), q) <==> Uses(c, q)
  {
    var d := InvertAll(c, t);
    forall q ensures Uses(d, q) <==> Uses(c, q) {
      if Uses(c, q) {
        var i :| 0 <= i < |c| && c[i].qubit == q;
        assert d[i].qubit == q;
      }
    }
  }

  lemma InvertOneMore(c: Control, t: set<Qubit>, q: Qubit)
    ensures q in t ==> InvertAll(c, t) == InvertAt(InvertAll(c, t - {q}), q)
    ensures t == {} ==> InvertAll(c, t) == c
  {
  }

  /** What a control qubit that has been preflushed looks like: a pending gate that keeps or flips its value. */
  ghost predicate ControlGate(h: Circle, g: U.U3, flips: bool) {
    if flips then IsAntidiagonal(Matrix(h, g)) else IsDiagonal(Matrix(h, g))
  }

  /** Every control of `c` that has a pending gate is ready, and those of `t` flip. */
  ghost predicate ControlsReady(h: Circle, m: Pending, c: Control, t: set<Qubit>) {
    forall q :: Uses(c, q) ==> if q in t then q in m && ControlGate(h, m[q], true) else q in m ==> ControlGate(h, m[q], false)
  }

  /** Past one pending gate on a qubit that is not a target. */
  lemma PassControl(h: Circle, q: Qubit, g: U.U3, o: CtlOp, flips: bool)
    requires !o.op.Writes(q) && (Uses(o.ctl, q) ==> ControlGate(h, g, flips)) && (flips ==> Uses(o.ctl, q))
    ensures PassesAs(h, [Pend(h, q, g)], o, if flips then CtlOp(InvertAt(o.ctl, q), o.op) else o)
  {
    hide Same, Matrix, PassesAs;
    var m := Matrix(h, g);
    if !Uses(o.ctl, q) {
      FreeCommutes(h, q, m, o);
      PassGate(h, Pend(h, q, g), o, o);
    } else if flips {
      AntidiagonalInverts(h, q, m, o);
      PassGate(h, Pend(h, q, g), o, CtlOp(InvertAt(o.ctl, q), o.op));
    } else {
      DiagonalCommutes(h, q, m, o);
      PassGate(h, Pend(h, q, g), o, o);
    }
  }

  /** An operation that has passed the gates on its target qubits passes those on its controls, and all others. */
  lemma {:induction false} PassControls(h: Circle, m: Pending, m0: Pending, o: CtlOp, o1: CtlOp, t: set<Qubit>)
    requires m0.Keys <= m.Keys && (forall q :: q in m0 ==> m0[q] == m[q]) && PassesAs(h, Singles(h, m0), o, o1)
    requires forall q :: q in m && q !in m0 ==> !o1.op.Writes(q) && (Uses(o1.ctl, q) ==> ControlGate(h, m[q], q in t))
    requires forall q :: q in t ==> q in m && q !in m0 && Uses(o1.ctl, q)
    ensures PassesAs(h, Singles(h, m), o, CtlOp(InvertAll(o1.ctl, t), o1.op))
    decreases |m|
  {
    hide PassesAs, Singles, ControlGate;
    if q :| q in m && q !in m0 {
      Fewer(m, q);
      PassControls(h, m - {q}, m0, o, o1, t - {q});
      var o2 := CtlOp(InvertAll(o1.ctl, t - {q}), o1.op);
      InvertAllKeeps(o1.ctl, t - {q});
      InvertOneMore(o1.ctl, t, q);
      assert q !in t ==> t - {q} == t;
      PassControl(h, q, m[q], o2, q in t);
      hide InvertAll, InvertAt;
      PassOne(h, m, q, o, o2, CtlOp(InvertAll(o1.ctl, t), o1.op));
    } else {
      assert m == m0;
      assert t == {};
      InvertOneMore(o1.ctl, t, 0);
    }
  }

  // The rewrites, one per kind of call

  /** Operations that differ only in how their control is written. */
  ghost predicate SameMeaning(o: CtlOp, o': CtlOp) {
    o.op == o'.op && forall b: Bits :: Holds(o.ctl, b) <==> Holds(o'.ctl, b)
  }

  lemma Rewritten(h: Circle, c: Circuit, o: CtlOp, o1: CtlOp, o2: CtlOp)
    requires PassesAs(h, c, o, o1) && SameMeaning(o1, o2)
    ensures PassesAs(h, c, o, o2)
  {
    forall v: Vec, b: Bits ensures OneStep(h, Controlled(o2), v, b) == OneStep(h, Controlled(o1), v, b) {
      assert Holds(o1.ctl, b) <==> Holds(o2.ctl, b);
      hide Holds, Mul, Phase;
    }
    hide OneStep, Same;
    SameOne(h, Controlled(o1), Controlled(o2));
    SameSuffix(h, [Controlled(o1)], [Controlled(o2)], c);
    SameTrans(h, c + [Controlled(o)], [Controlled(o1)] + c, [Controlled(o2)] + c);
  }

  /** One more item at the end of a control. */
  function Append(c: Control, q: Qubit, v: bool): Control {
    c + [ControlItem(q, v)]
  }

  lemma AppendMeans(c: Control, q: Qubit, v: bool)
    ensures forall p :: Uses(Append(c, q, v), p) <==> Uses(c, p) || p == q
    ensures forall b: Bits :: Holds(Append(c, q, v), b) <==> Holds(c, b) && ((q in b) == v)
  {
    var d := Append(c, q, v);
    assert d[|c|] == ControlItem(q, v) && forall i :: 0 <= i < |c| ==> d[i] == c[i];
    forall p ensures Uses(d, p) <==> Uses(c, p) || p == q {
      if Uses(c, p) {
        var i :| 0 <= i < |c| && c[i].qubit == p;
        assert d[i].qubit == p;
      }
    }
    forall b: Bits ensures Holds(d, b) <==> Holds(c, b) && ((q in b) == v) {
      if Holds(d, b) {
        forall i | 0 <= i < |c| ensures (c[i].qubit in b) == c[i].value {
          assert d[i] == c[i];
        }
      }
    }
  }

  lemma AppendInverts(c: Control, q: Qubit, v: bool, t: set<Qubit>)
    requires q !in t
    ensures InvertAll(Append(c, q, v), t) == Append(InvertAll(c, t), q, v)
  {
  }

  lemma SinglesOfOne(h: Circle, q: Qubit, g: U.U3, o: CtlOp, o': CtlOp)
    requires PassesAs(h, [Pend(h, q, g)], o, o')
    ensures PassesAs(h, Singles(h, map[q := g]), o, o')
  {
    hide Same, PassesAs, Singles;
    assert map[q := g] - {q} == map[];
    PassNone(h, o);
    PassOne(h, map[q := g], q, o, o, o');
  }

  /** A controlled x whose target is free, or commutes with x. */
  lemma PassX(h: Circle, m: Pending, c: Control, q: Qubit, t: set<Qubit>)
    requires IsCircle(h) && !Uses(c, q) && (q in m ==> IsRx(Matrix(h, m[q])))
    requires ControlsReady(h, m, c, t) && forall p :: p in t ==> Uses(c, p)
    ensures PassesAs(h, Singles(h, m), CtlOp(c, X(q)), CtlOp(InvertAll(c, t), X(q)))
  {
    hide IsCircle, Same, PassesAs, ControlGate, Singles, Matrix;
    var o := CtlOp(c, X(q));
    if q in m {
      RxCommutes(h, q, Matrix(h, m[q]), o);
      PassGate(h, Pend(h, q, m[q]), o, o);
      SinglesOfOne(h, q, m[q], o, o);
      PassControls(h, m, map[q := m[q]], o, o, t);
    } else {
      PassNone(h, o);
      PassControls(h, m, map[], o, o, t);
    }
  }

  /** A controlled phase. */
  lemma PassPhase(h: Circle, m: Pending, c: Control, a: Angle, t: set<Qubit>)
    requires ControlsReady(h, m, c, t) && forall p :: p in t ==> Uses(c, p)
    ensures PassesAs(h, Singles(h, m), CtlOp(c, Gphase(a)), CtlOp(InvertAll(c, t), Gphase(a)))
  {
    hide PassesAs, ControlGate, Singles;
    PassNone(h, CtlOp(c, Gphase(a)));
    PassControls(h, m, map[], CtlOp(c, Gphase(a)), CtlOp(c, Gphase(a)), t);
  }

  /** A controlled swap of two qubits without pending gates. */
  lemma PassSwap(h: Circle, m: Pending, c: Control, q1: Qubit, q2: Qubit, t: set<Qubit>)
    requires q1 !in m && q2 !in m && ControlsReady(h, m, c, t) && forall p :: p in t ==> Uses(c, p)
    ensures PassesAs(h, Singles(h, m), CtlOp(c, Swap(q1, q2)), CtlOp(InvertAll(c, t), Swap(q1, q2)))
  {
    hide PassesAs, ControlGate, Singles;
    PassNone(h, CtlOp(c, Swap(q1, q2)));
    PassControls(h, m, map[], CtlOp(c, Swap(q1, q2)), CtlOp(c, Swap(q1, q2)), t);
  }

  /** CX onto a qubit with a pending h is CZ; the item on the target is inverted where an x came first. */
  lemma PassXAsPhase(h: Circle, m: Pending, c: Control, q: Qubit, inverted: bool, t: set<Qubit>)
    requires IsCircle(h) && !Uses(c, q) && q in m && TurnsXToPhase(Matrix(h, m[q]), inverted)
    requires ControlsReady(h, m, c, t) && forall p :: p in t ==> Uses(c, p)
    ensures PassesAs(h, Singles(h, m), CtlOp(c, X(q)), CtlOp(Append(InvertAll(c, t), q, !inverted), Gphase(PI)))
  {
    hide IsCircle, Same, PassesAs, ControlGate, Singles, Matrix, InvertAll;
    var o, d := CtlOp(c, X(q)), Append(c, q, !inverted);
    var o1 := CtlOp(d, Gphase(PI));
    AppendMeans(c, q, !inverted);
    AppendInverts(c, q, !inverted, t);
    hide Append;
    XBecomesPhase(h, q, Matrix(h, m[q]), c, d, inverted);
    PassGate(h, Pend(h, q, m[q]), o, o1);
    SinglesOfOne(h, q, m[q], o, o1);
    PassControls(h, m, map[q := m[q]], o, o1, t);
  }

  /** CZ with a pending h on a control is CX onto that control. */
  lemma PassPhaseAsX(h: Circle, m: Pending, c: Control, rest: Control, q: Qubit, t: set<Qubit>)
    requires IsCircle(h) && Extends(rest, c, q, true) && q in m && TurnsPhaseToX(Matrix(h, m[q]))
    requires ControlsReady(h, m, rest, t) && forall p :: p in t ==> Uses(rest, p)
    ensures PassesAs(h, Singles(h, m), CtlOp(c, Gphase(PI)), CtlOp(InvertAll(rest, t), X(q)))
  {
    hide IsCircle, Same, PassesAs, ControlGate, Singles, Matrix, InvertAll;
    var o, o1 := CtlOp(c, Gphase(PI)), CtlOp(rest, X(q));
    PhaseBecomesX(h, q, Matrix(h, m[q]), rest, c);
    PassGate(h, Pend(h, q, m[q]), o, o1);
    SinglesOfOne(h, q, m[q], o, o1);
    PassControls(h, m, map[q := m[q]], o, o1, t);
  }

  lemma AppendExtends(rest: Control, c: Control, q: Qubit, p: Qubit, v: bool)
    requires Extends(rest, c, q, true) && p != q
    ensures Extends(Append(rest, p, v), Append(c, p, v), q, true)
  {
    AppendMeans(rest, p, v);
    AppendMeans(c, p, v);
    hide Append, Holds;
  }

  /** CX with a pending h both on the target and on a control is CX onto that control. */
  lemma PassXRetargeted(h: Circle, m: Pending, c: Control, rest: Control, q: Qubit, inverted: bool, p: Qubit, t: set<Qubit>)
    requires IsCircle(h) && !Uses(c, q) && q in m && TurnsXToPhase(Matrix(h, m[q]), inverted)
    requires Extends(rest, c, p, true) && p != q && !Uses(rest, q) && p in m && TurnsPhaseToX(Matrix(h, m[p]))
    requires ControlsReady(h, m, rest, t) && forall k :: k in t ==> Uses(rest, k)
    ensures PassesAs(h, Singles(h, m), CtlOp(c, X(q)), CtlOp(Append(InvertAll(rest, t), q, !inverted), X(p)))
  {
    hide IsCircle, Same, PassesAs, ControlGate, Singles, Matrix, InvertAll, Holds;
    var o, d, e := CtlOp(c, X(q)), Append(c, q, !inverted), Append(rest, q, !inverted);
    var o1, o2 := CtlOp(d, Gphase(PI)), CtlOp(e, X(p));
    AppendMeans(c, q, !inverted);
    AppendMeans(rest, q, !inverted);
    AppendInverts(rest, q, !inverted, t);
    AppendExtends(rest, c, p, q, !inverted);
    hide Append;
    XBecomesPhase(h, q, Matrix(h, m[q]), c, d, inverted);
    PassGate(h, Pend(h, q, m[q]), o, o1);
    SinglesOfOne(h, q, m[q], o, o1);
    PhaseBecomesX(h, p, Matrix(h, m[p]), e, d);
    PassGate(h, Pend(h, p, m[p]), o1, o2);
    var m0 := map[q := m[q], p := m[p]];
    assert m0 - {p} == map[q := m[q]];
    PassOne(h, m0, p, o, o1, o2);
    PassControls(h, m, m0, o, o2, t);
  }
}
