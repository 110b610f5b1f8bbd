/**
 The pending gates of the lazy simulator (`src/simulator.rs`) with their flags: what preflushing and flushing may do to
 them, and that what is left lets the rewritten operation pass.
 */
module LazyStates {
  import opened Wrappers
  import opened Angles
  import opened Controls
  import opened Ops
  import opened BasisOrder
  import opened Complexes
  import opened Circuits
  import opened CircuitRules
  import opened U3Matrices
  import opened U3Decompositions
  import opened PendingGates
  import opened DenseVectors
  import opened Masses
  import P = SparseParts
  import U = U3Gates
  import UC = U3Composition
  import BR = BornRule
  import C = CompiledGates
  import SS = SparseSorting
  import Q = CompileQueue
  import SU = SfreeUpdate
  import M = Measurements
  import SM = SparseMeasure

  datatype QubitState = QubitState(pending: U.U3, maybeDestructive: bool, mustFlush: bool, isReordered: bool)

  type States = map<Qubit, QubitState>

  /** The pending gates without the flags. */
  function Gates(m: States): (g: Pending)
    ensures g.Keys == m.Keys && forall q :: q in m ==> g[q] == m[q].pending
  {
    map q | q in m :: m[q].pending
  }

  /** What an operation can live with on a qubit: nothing; rz and x as its control; also h as its control; rx and h
      as the target of x (`PreflushI`, `PreflushCtl`, `PreflushCtlH` and `PreflushX`). */
  datatype Kind = ForAnything | ForControl | ForControlOrH | ForX

  /** What a pending gate was found to be. */
  datatype Match = AsId | AsRz | AsXRz | AsRx | AsHRz | AsHRx | AsXHRx

  predicate Accepts(kind: Kind, m: Match) {
    match kind
    case ForAnything => false
    case ForControl => m == AsRz || m == AsXRz
    case ForControlOrH => m == AsRz || m == AsXRz || m == AsHRz
    case ForX => m == AsRx || m == AsHRx || m == AsXHRx
  }

  /** All pending gates are on the grid of the precision. */
  ghost predicate AllFine(prec: nat, m: States) {
    forall q :: q in m ==> U.IsFine(m[q].pending, prec)
  }

  /** Rounding mistakes no pending gate. */
  ghost predicate AllPlain(prec: nat, m: States) {
    forall q :: q in m ==> U.IsPlain(m[q].pending, prec)
  }

  /** The same of the gates that a call still tests: those that it has not changed. */
  ghost predicate Tested(prec: nat, m: States) {
    forall q :: q in m && !m[q].isReordered ==> U.IsPlain(m[q].pending, prec)
  }

  lemma FineArePlain(prec: nat, m: States)
    ensures AllFine(prec, m) ==> AllPlain(prec, m)
  {
    hide U.IsFine, U.IsPlain;
    if AllFine(prec, m) {
      forall q | q in m ensures U.IsPlain(m[q].pending, prec) {
        FineIsPlain(m[q].pending, prec);
      }
    }
  }

  lemma PlainAreTested(prec: nat, m: States)
    ensures AllPlain(prec, m) ==> Tested(prec, m)
  {
    hide U.IsPlain;
  }

  lemma TestedAt(prec: nat, m: States, q: Qubit)
    requires Tested(prec, m)
    ensures q in m && !m[q].isReordered ==> U.IsPlain(m[q].pending, prec)
  {
    hide U.IsPlain;
  }

  /** What waits is on the grid, so that no rounding decides anything. */
  ghost predicate Sharp(prec: nat, m: States, ops: OpSeq) {
    prec >= 2 && AllFine(prec, m) && AllOnGrid(ops, prec)
  }

  lemma SharpAt(prec: nat, m: States, ops: OpSeq, q: Qubit)
    requires Sharp(prec, m, ops)
    ensures q in m ==> U.IsFine(m[q].pending, prec)
  {
    hide U.IsFine;
  }

  lemma SharpIs(prec: nat, m: States, ops: OpSeq)
    requires Sharp(prec, m, ops)
    ensures prec >= 2 && AllOnGrid(ops, prec)
  {
    hide AllFine, AllOnGrid;
  }

  lemma SharpWithout(prec: nat, m: States, ops: OpSeq, q: Qubit)
    requires Sharp(prec, m, ops)
    ensures Sharp(prec, m - {q}, ops) && Sharp(prec, m, [])
  {
    hide U.IsFine;
  }

  lemma SharpWith(prec: nat, m: States, ops: OpSeq, q: Qubit, st: QubitState)
    requires Sharp(prec, m, ops) && U.IsFine(st.pending, prec)
    ensures Sharp(prec, m[q := st], ops)
  {
    hide U.IsFine;
  }

  lemma SharpQueued(prec: nat, m: States, ops: OpSeq, more: OpSeq)
    requires Sharp(prec, m, ops) && AllOnGrid(more, prec)
    ensures Sharp(prec, m, ops + more)
  {
    hide AllFine, OnGrid;
  }

  ghost predicate AllClifford(m: States) {
    forall q :: q in m ==> UC.IsClifford(m[q].pending)
  }

  /** A gate that an operation of this kind need not flush: one that only relabels or turns is queued, others stay as one
      of the forms that the operation can live with. */
  predicate Stays(kind: Kind, g: U.U3, prec: nat) {
    || U.ToCxRz(g, prec).Some?
    || (U.ToRzRx(g, prec).Some? && Accepts(kind, AsRx))
    || (match U.ToRzHRz(g, prec)
        case Some((rz1, rz2)) =>
          || Accepts(kind, AsHRz)
          || (Round(rz2, prec) == 0 && Accepts(kind, AsHRx))
          || (Round(rz2, prec) == PI && Accepts(kind, AsXHRx))
        case None => false)
  }

  /** The gate is not an h between two rz in a form that this kind can live with. */
  predicate MatchesNoH(kind: Kind, g: U.U3, prec: nat) {
    match U.ToRzHRz(g, prec)
    case Some((rz1, rz2)) =>
      && !Accepts(kind, AsHRz)
      && !(Round(rz2, prec) == 0 && Accepts(kind, AsHRx)) && !(Round(rz2, prec) == PI && Accepts(kind, AsXHRx))
    case None => true
  }

  lemma NotStaying(kind: Kind, g: U.U3, prec: nat)
    requires U.ToCxRz(g, prec).None? && !(U.ToRzRx(g, prec).Some? && Accepts(kind, AsRx)) && MatchesNoH(kind, g, prec)
    ensures !Stays(kind, g, prec)
  {
    hide Round, U.ToCxRz, U.ToRzRx, U.ToRzHRz, Accepts;
  }

  /** What the match promises of the matrix. */
  ghost predicate Fulfils(m: Mat, r: Match) {
    match r
    case AsId => true
    case AsRz => IsDiagonal(m)
    case AsXRz => IsAntidiagonal(m)
    case AsRx => IsRx(m)
    case AsHRz => TurnsPhaseToX(m)
    case AsHRx => TurnsXToPhase(m, false)
    case AsXHRx => TurnsXToPhase(m, true)
  }

  /** The qubit after it has been preflushed: its gate must go, or it may stay and is as matched. A gate that the
      operation is rewritten for is not flushed before. */
  ghost predicate Matched(h: Circle, prec: nat, exact: bool, m: States, q: Qubit, r: Match) {
    if r == AsId then q in m ==> m[q].mustFlush
    else
      && q in m && !m[q].mustFlush && (exact ==> Fulfils(Matrix(h, m[q].pending), r))
      && (r == AsXRz ==> U.IsSfree(m[q].pending, prec)) && (r == AsHRz || r == AsHRx || r == AsXHRx ==> m[q].isReordered)
  }

  /** And after the flush. */
  ghost predicate Settled(h: Circle, prec: nat, exact: bool, m: States, q: Qubit, r: Match) {
    if r == AsId then q !in m
    else
      && (q in m && exact ==> Fulfils(Matrix(h, m[q].pending), r))
      && (r != AsRz && r != AsRx ==> q in m)
  }

  /** Between calls no gate is marked. */
  predicate Quiet(m: States) {
    forall q :: q in m ==> !m[q].mustFlush && !m[q].isReordered
  }

  /** The same logical state, in exact arithmetic. */
  ghost predicate SameAt(h: Circle, exact: bool, c: Circuit, d: Circuit) {
    exact ==> Same(h, c, d)
  }

  lemma SameAtRefl(h: Circle, exact: bool, c: Circuit)
    ensures SameAt(h, exact, c, c)
  {
    SameRefl(h, c);
    hide Same;
  }

  lemma SameAtOf(h: Circle, exact: bool, c: Circuit, d: Circuit)
    requires Same(h, c, d)
    ensures SameAt(h, exact, c, d)
  {
    hide Same;
  }

  lemma SameAtTrans(h: Circle, exact: bool, c: Circuit, d: Circuit, e: Circuit)
    requires SameAt(h, exact, c, d) && SameAt(h, exact, d, e)
    ensures SameAt(h, exact, c, e)
  {
    hide Same;
    if exact {
      SameTrans(h, c, d, e);
    }
  }

  /** What a flush may do to the pending gates. */
  ghost predicate Flushed(prec: nat, m: States, m': States) {
    && (forall q :: q in m' ==> q in m && m'[q].pending == m[q].pending && !m[q].mustFlush)
    && (forall q :: q in m && !m[q].mustFlush && (m[q].isReordered || U.IsSfree(m[q].pending, prec)) ==> q in m')
  }

  /** What the early part of a flush may do: drop gates that are neither marked as reordered nor superposition-free. */
  ghost predicate Trimmed(prec: nat, m: States, m': States) {
    && (forall q :: q in m' ==> q in m && m'[q] == m[q].(maybeDestructive := m'[q].maybeDestructive))
    && (forall q :: q in m && (m[q].isReordered || U.IsSfree(m[q].pending, prec)) ==> q in m')
  }

  /** The same for one gate. */
  ghost predicate TrimmedAt(prec: nat, m: States, m': States, q: Qubit) {
    && q in m && m' - {q} == m - {q}
    && (if q in m' then m'[q] == m[q].(maybeDestructive := m'[q].maybeDestructive)
        else !m[q].isReordered && !U.IsSfree(m[q].pending, prec))
  }

  ghost predicate UnmarkedAt(m: States, m': States, q: Qubit) {
    && q in m && m' - {q} == m - {q}
    && (if m[q].mustFlush then q !in m' else q in m' && m'[q] == m[q].(isReordered := false))
  }

  lemma Elsewhere(m: States, m': States, q: Qubit, p: Qubit)
    requires m' - {q} == m - {q} && p != q
    ensures (p in m' <==> p in m) && (p in m ==> m'[p] == m[p])
  {
    assert p in m' <==> p in m' - {q};
    assert p in m <==> p in m - {q};
    assert p in m ==> (m' - {q})[p] == (m - {q})[p];
  }

  lemma TrimmedStep(prec: nat, m: States, m': States, m'': States, q: Qubit)
    requires Trimmed(prec, m, m') && TrimmedAt(prec, m', m'', q)
    ensures Trimmed(prec, m, m'') && m'.Keys - {q} <= m''.Keys
  {
    hide U.IsSfree;
    assert m'.Keys - {q} == (m' - {q}).Keys;
    forall p | p in m'' ensures p in m && m''[p] == m[p].(maybeDestructive := m''[p].maybeDestructive) {
      if p != q {
        Elsewhere(m', m'', q, p);
      }
    }
    forall p | p in m && (m[p].isReordered || U.IsSfree(m[p].pending, prec)) ensures p in m'' {
      if p != q {
        Elsewhere(m', m'', q, p);
      }
    }
  }

  lemma TrimmedNone(prec: nat, m: States)
    ensures Trimmed(prec, m, m)
  {
    hide U.IsSfree;
  }

  /** Part of the gates have been looked at. */
  ghost predicate PartUnmarked(m: States, m': States, todo: set<Qubit>) {
    && (forall q :: q in todo ==> q in m && q in m' && m'[q] == m[q])
    && (forall q :: q in m' && q !in todo ==> q in m && !m[q].mustFlush && m'[q] == m[q].(isReordered := false))
    && (forall q :: q in m && !m[q].mustFlush ==> q in m')
  }

  lemma UnmarkedStep(m: States, m': States, m'': States, q: Qubit, todo: set<Qubit>)
    requires q in todo && PartUnmarked(m, m', todo) && UnmarkedAt(m', m'', q)
    ensures PartUnmarked(m, m'', todo - {q})
  {
    forall p | p in todo - {q} ensures p in m && p in m'' && m''[p] == m[p] {
      Elsewhere(m', m'', q, p);
    }
    forall p | p in m'' && p !in todo - {q} ensures p in m && !m[p].mustFlush && m''[p] == m[p].(isReordered := false) {
      if p != q {
        Elsewhere(m', m'', q, p);
      }
    }
    forall p | p in m && !m[p].mustFlush ensures p in m'' {
      if p != q {
        Elsewhere(m', m'', q, p);
      }
    }
  }

  lemma PartUnmarkedStart(m: States)
    ensures PartUnmarked(m, m, m.Keys)
  {
  }

  lemma PartUnmarkedAt(m: States, m': States, todo: set<Qubit>, q: Qubit)
    requires PartUnmarked(m, m', todo) && q in todo
    ensures q in m && q in m' && m'[q] == m[q]
  {
  }

  lemma TrimmedTwice(prec: nat, m: States, m': States, m'': States)
    requires Trimmed(prec, m, m') && Trimmed(prec, m', m'')
    ensures Trimmed(prec, m, m'')
  {
    hide U.IsSfree;
  }

  /** No gate that must go is blocked by operations that read and write these qubits. */
  ghost predicate NoneBlocked(m: States, read: set<Qubit>, written: set<Qubit>, prec: nat) {
    forall q :: q in m && m[q].mustFlush ==> !Q.IsBlocked(read, written, q, m[q].pending, prec)
  }

  /** No gate is both to go and to stay. */
  ghost predicate Consistent(m: States) {
    forall q :: q in m ==> !m[q].mustFlush || !m[q].isReordered
  }

  lemma TrimmedMarks(prec: nat, m: States, m': States, read: set<Qubit>, written: set<Qubit>)
    requires Trimmed(prec, m, m') && Consistent(m)
    ensures Consistent(m')
    ensures NoneBlocked(m, read, written, prec) ==> NoneBlocked(m', read, written, prec)
  {
    hide U.IsSfree, Q.IsBlocked;
  }

  lemma TrimmedUnmarked(prec: nat, m: States, m': States, m'': States)
    requires Trimmed(prec, m, m') && PartUnmarked(m', m'', {})
    ensures Flushed(prec, m, m'') && (Consistent(m) ==> Quiet(m''))
  {
    hide U.IsSfree;
  }

  lemma MatchedSettles(h: Circle, prec: nat, exact: bool, m: States, m': States, q: Qubit, r: Match)
    requires Matched(h, prec, exact, m, q, r) && Flushed(prec, m, m')
    ensures Settled(h, prec, exact, m', q, r)
  {
    hide Fulfils, Matrix, U.IsSfree;
  }

  /** How many words a vector gets that has to hold the qubit. The source stops at 62 words. */
  function WordsFor(q: Qubit): (w: nat)
    ensures q < WORD * w
  {
    if q < WORD then 1
    else if q < 2 * WORD then 2
    else if q < 6 * WORD then 6
    else if q < 14 * WORD then 14
    else if q < 22 * WORD then 22
    else if q < 30 * WORD then 30
    else if q < 46 * WORD then 46
    else if q < 62 * WORD then 62
    else q / WORD + 1
  }

  /** The all-zero basis state. */
  const ZEROS: Vec := (b: Bits) => if b == {} then ONE else ZERO

  lemma StartsAsZeros(h: Circle)
    ensures Denotes(h, map[{} := ONE], ZEROS, [])
  {
    forall b: Bits ensures Value(map[{} := ONE], b) == Mul(ONE, Amp(h, [], ZEROS, b)) {
      AmpNone(h, ZEROS, b);
      Units(ZEROS(b));
    }
    hide *;
    MinusIsUnit();
    DenotesWith(h, map[{} := ONE], ZEROS, [], ONE);
  }

  // Gates as operations

  /** An x and an rz as operations, without the parts that round to nothing. */
  function SfreeOps(q: Qubit, isX: bool, rz: Angle, prec: nat): OpSeq {
    (if isX then [FlipOp(q)] else []) + (if Round(rz, prec) != 0 then [PhaseOp(q, true, rz)] else [])
  }

  lemma SfreeOnGrid(q: Qubit, g: U.U3, prec: nat, isX: bool, rz: Angle)
    requires U.IsFine(g, prec) && U.ToCxRz(g, prec) == Some((isX, rz))
    ensures AllOnGrid(SfreeOps(q, isX, rz, prec), prec)
  {
    PartsOnGrid(g, prec);
    hide OnGrid, Round;
  }

  lemma QueuedOne(o: CtlOp, g: Gate)
    ensures Queued([o]) + [g] == [Controlled(o), g]
  {
  }

  lemma SfreeAsOps(h: Circle, q: Qubit, g: U.U3, prec: nat, isX: bool, rz: Angle)
    requires IsCircle(h) && U.ToCxRz(g, prec) == Some((isX, rz))
    requires Round(g.theta, prec) == g.theta && (Round(rz, prec) == 0 ==> rz == 0)
    ensures Same(h, [Pend(h, q, g)], Queued(SfreeOps(q, isX, rz, prec)))
  {
    hide IsCircle, Same, Matrix, Alike, RzMat, Times, U.ToCxRz;
    CxRzProduct(h, g, prec);
    PlainAngles(0, prec);
    hide Round;
    var more, m := SfreeOps(q, isX, rz, prec), Matrix(h, g);
    if isX && rz != 0 {
      assert more == [FlipOp(q), PhaseOp(q, true, rz)];
      assert Queued(more) == [Controlled(FlipOp(q)), Controlled(PhaseOp(q, true, rz))];
      XRzAsOps(h, q, m, rz);
    } else if isX {
      assert more == [FlipOp(q)];
      assert Queued(more) == [Controlled(FlipOp(q))];
      UC.RzNothing(h, XMat);
      XAsOp(h, q, m);
    } else if rz != 0 {
      assert more == [PhaseOp(q, true, rz)];
      assert Queued(more) == [Controlled(PhaseOp(q, true, rz))];
      RzAsOp(h, q, m, rz);
    } else {
      assert more == [];
      assert Queued(more) == [];
      NothingVanishes(h, q, m);
    }
  }

  lemma PlainSfree(g: U.U3, prec: nat, isX: bool, rz: Angle)
    requires U.IsPlain(g, prec) && U.ToCxRz(g, prec) == Some((isX, rz))
    ensures Round(g.theta, prec) == g.theta && (Round(rz, prec) == 0 ==> rz == 0)
  {
    hide Round, Wrap, U.BothPlain, U.ToRzRx, U.ToRzHRz;
  }

  /** Queueing all of a waiting gate. */
  lemma SfreeQueued(h: Circle, applied: Circuit, ops: OpSeq, m: States, q: Qubit, prec: nat, isX: bool, rz: Angle)
    requires IsCircle(h) && q in m && U.ToCxRz(m[q].pending, prec) == Some((isX, rz))
    ensures var all := ops + SfreeOps(q, isX, rz, prec);
      && (U.IsPlain(m[q].pending, prec) ==> Same(h, Log(h, applied, ops, Gates(m)), Log(h, applied, all, Gates(m - {q}))))
      && (Sharp(prec, m, ops) ==> Sharp(prec, m - {q}, all))
  {
    var g, more := m[q].pending, SfreeOps(q, isX, rz, prec);
    assert Gates(m)[q] == g && Gates(m) - {q} == Gates(m - {q});
    hide *;
    if U.IsPlain(g, prec) {
      PlainSfree(g, prec, isX, rz);
      SfreeAsOps(h, q, g, prec, isX, rz);
      AllToQueue(h, applied, ops, more, Gates(m), q);
    }
    if Sharp(prec, m, ops) {
      SharpAt(prec, m, ops, q);
      SfreeOnGrid(q, g, prec, isX, rz);
      SharpQueued(prec, m, ops, more);
      SharpWithout(prec, m, ops + more, q);
    }
  }

  /** Queueing the rz that a waiting gate begins with. */
  lemma RzQueued(h: Circle, applied: Circuit, ops: OpSeq, m: States, q: Qubit, prec: nat, rz: Angle, st: QubitState)
    requires IsCircle(h) && q in m
    ensures var all := ops + [PhaseOp(q, true, rz)];
      && (Alike(Matrix(h, m[q].pending), Times(Matrix(h, st.pending), RzMat(h, rz))) ==>
            Same(h, Log(h, applied, ops, Gates(m)), Log(h, applied, all, Gates(m[q := st]))))
      && (Sharp(prec, m, ops) && OnGrid(rz, prec) && U.IsFine(st.pending, prec) ==> Sharp(prec, m[q := st], all))
  {
    var g, o := st.pending, PhaseOp(q, true, rz);
    assert Gates(m)[q] == m[q].pending && Gates(m)[q := g] == Gates(m[q := st]);
    if OnGrid(rz, prec) {
      PhaseOpOnGrid(q, rz, prec);
    }
    hide *;
    if Sharp(prec, m, ops) && OnGrid(rz, prec) && U.IsFine(st.pending, prec) {
      SharpQueued(prec, m, ops, [o]);
      SharpWith(prec, m, ops + [o], q, st);
    }
    if Alike(Matrix(h, m[q].pending), Times(Matrix(h, g), RzMat(h, rz))) {
      SplitRz(h, q, Matrix(h, m[q].pending), Matrix(h, g), rz);
      PendIs(h, q, g);
      PendIs(h, q, m[q].pending);
      QueuedOne(o, Pend(h, q, g));
      PartToQueue(h, applied, ops, [o], Gates(m), q, g);
    }
  }

  lemma PhaseOpOnGrid(q: Qubit, rz: Angle, prec: nat)
    requires OnGrid(rz, prec)
    ensures AllOnGrid([PhaseOp(q, true, rz)], prec)
  {
    hide OnGrid;
  }

  lemma XAsOp(h: Circle, q: Qubit, m: Mat)
    requires IsCircle(h) && Alike(m, XMat)
    ensures Same(h, [Single(q, m)], [Controlled(FlipOp(q))])
  {
    hide *;
    AlikeSame(h, q, m, XMat);
    FlipIsX(h, q);
    SameSym(h, [Controlled(FlipOp(q))], [Single(q, XMat)]);
    SameTrans(h, [Single(q, m)], [Single(q, XMat)], [Controlled(FlipOp(q))]);
  }

  lemma NothingVanishes(h: Circle, q: Qubit, m: Mat)
    requires IsCircle(h) && Alike(m, RzMat(h, 0))
    ensures Same(h, [Single(q, m)], [])
  {
    hide *;
    RzZero(h);
    AlikeSame(h, q, m, RzMat(h, 0));
    IdentityVanishes(h, q);
    SameTrans(h, [Single(q, m)], [Single(q, RzMat(h, 0))], []);
  }

  lemma RzZero(h: Circle)
    requires IsCircle(h)
    ensures RzMat(h, 0) == Mat(ONE, ZERO, ZERO, ONE)
  {
    hide IsCircle;
    CircleZero(h);
    hide Phase;
  }

  // Preflushing one qubit

  /** Only the entry of one qubit has changed, and it is not marked both ways. */
  ghost predicate Touched(m: States, m': States, q: Qubit) {
    && m' - {q} == m - {q}
    && (q in m' ==> q in m && (!m'[q].mustFlush || !m'[q].isReordered) && (!m'[q].isReordered ==> m'[q].pending == m[q].pending))
    && (q in m' && UC.IsClifford(m[q].pending) ==> UC.IsClifford(m'[q].pending))
  }

  lemma IdMatches(h: Circle, prec: nat, exact: bool, m: States, q: Qubit)
    requires q !in m
    ensures Matched(h, prec, exact, m, q, AsId)
  {
  }

  lemma SfreeMatches(h: Circle, prec: nat, exact: bool, m: States, q: Qubit)
    requires IsCircle(h) && (q in m ==> !m[q].mustFlush && (exact ==> U.IsPlain(m[q].pending, prec)))
    ensures q !in m ==> Matched(h, prec, exact, m, q, AsId)
    ensures q in m && U.ToCxRz(m[q].pending, prec).Some? ==>
      Matched(h, prec, exact, m, q, if U.ToCxRz(m[q].pending, prec).value.0 then AsXRz else AsRz)
  {
    hide IsCircle, Matrix, U.IsPlain;
    if q in m && U.ToCxRz(m[q].pending, prec).Some? {
      if exact {
        SfreeShape(h, m[q].pending, prec);
      }
      hide Round;
    }
  }

  lemma SfreeShape(h: Circle, g: U.U3, prec: nat)
    requires IsCircle(h) && U.IsPlain(g, prec) && U.ToCxRz(g, prec).Some?
    ensures if U.ToCxRz(g, prec).value.0 then IsAntidiagonal(Matrix(h, g)) else IsDiagonal(Matrix(h, g))
  {
    var (isX, rz) := U.ToCxRz(g, prec).value;
    hide IsCircle, Alike, Matrix, U.ToCxRz;
    CxRzProduct(h, g, prec);
    var n := if isX then Times(RzMat(h, rz), XMat) else RzMat(h, rz);
    AlikeSym(Matrix(h, g), n);
    XRzShape(h, rz);
    AlikeKeepsZeros(n, Matrix(h, g));
  }

  lemma XRzShape(h: Circle, rz: int)
    ensures IsAntidiagonal(Times(RzMat(h, rz), XMat)) && IsDiagonal(RzMat(h, rz))
  {
    hide Times, Phase;
    TimesLeft(h, XMat, rz);
    Units(Phase(h, rz));
    hide Mul;
  }

  /** A gate matched as rx is a rotation about X once its rz part is gone. */
  lemma RxMatches(h: Circle, prec: nat, g: U.U3)
    requires IsCircle(h) && U.ToRzRx(g, prec).Some?
    ensures var (rz, rx) := U.ToRzRx(g, prec).value;
      U.IsPlain(g, prec) ==>
        && Alike(Matrix(h, g), Times(Matrix(h, U.Rx(rx)), RzMat(h, rz))) && Fulfils(Matrix(h, U.Rx(rx)), AsRx)
        && (Round(rz, prec) == 0 ==> Fulfils(Matrix(h, g), AsRx))
  {
    hide IsCircle, Matrix, Alike, Times, RzMat, U.ToRzRx, U.Rx, Round;
    if U.IsPlain(g, prec) {
      var (rz, rx) := U.ToRzRx(g, prec).value;
      RzRxProduct(h, g, prec);
      RxIsRx(h, rx);
      PartsMissing(h, g, prec);
      PlainParts(g, prec);
    }
  }

  /** A gate with a quarter turn about Y is an h between two rz. */
  lemma HMatches(h: Circle, prec: nat, numeric: U.Numeric, g: U.U3)
    requires IsCircle(h) && U.ToRzHRz(g, prec).Some?
    ensures var (rz1, rz2) := U.ToRzHRz(g, prec).value;
      var hRz := U.Compose(numeric, U.H, U.Rz(rz2));
      U.IsPlain(g, prec) ==>
        && Alike(Matrix(h, g), Times(Matrix(h, hRz), RzMat(h, rz1))) && Fulfils(Matrix(h, hRz), AsHRz)
        && (Round(rz1, prec) == 0 ==> Fulfils(Matrix(h, g), AsHRz))
        && (Round(rz2, prec) == 0 ==> Fulfils(Matrix(h, g), AsHRx))
        && (Round(rz2, prec) == PI ==> Fulfils(Matrix(h, g), AsXHRx))
  {
    hide IsCircle, Matrix, Alike, Times, RzMat, U.ToRzHRz, U.Compose, Round;
    if U.IsPlain(g, prec) {
      var (rz1, rz2) := U.ToRzHRz(g, prec).value;
      RzHRzProduct(h, g, prec);
      AlikeRefl(Matrix(h, g));
      HThenRz(numeric, rz2);
      HRzTurnsPhaseToX(h, rz2);
      RzHTurnsXToPhase(h, g, prec);
      PlainParts(g, prec);
    }
  }

  lemma HThenRz(numeric: U.Numeric, a: Angle)
    ensures U.Compose(numeric, U.H, U.Rz(a)) == U.U3(PI_1_2, a, PI)
  {
  }

  // Controls

  /** The control qubits from item `i` on are not marked. */
  ghost predicate Unmarked(m: States, ctl: Control, i: nat) {
    forall k :: i <= k < |ctl| && ctl[k].qubit in m ==> !m[ctl[k].qubit].mustFlush && !m[ctl[k].qubit].isReordered
  }

  /** The control qubits up to item `i` have been preflushed. */
  ghost predicate CtlMatched(h: Circle, prec: nat, exact: bool, m: States, ctl: Control, i: nat, t: set<Qubit>) {
    forall k :: 0 <= k < i <= |ctl| ==> ItemMatched(h, prec, exact, m, ctl[k].qubit, ctl[k].qubit in t)
  }

  ghost predicate ItemMatched(h: Circle, prec: nat, exact: bool, m: States, q: Qubit, inverted: bool) {
    if inverted then Matched(h, prec, exact, m, q, AsXRz) else Matched(h, prec, exact, m, q, AsId) || Matched(h, prec, exact, m, q, AsRz)
  }

  /** The other qubits are as they were. */
  ghost predicate Kept(m: States, m': States, ctl: Control, i: nat) {
    && (forall q :: q in m' ==> q in m) && (AllClifford(m) ==> AllClifford(m'))
    && (forall q :: q in m && (forall k :: 0 <= k < i && k < |ctl| ==> ctl[k].qubit != q) ==> q in m' && m'[q] == m[q])
  }

  /** Preflushing a qubit leaves Clifford gates, if all were. */
  lemma TouchedClifford(m: States, m': States, q: Qubit)
    requires Touched(m, m', q)
    ensures AllClifford(m) ==> AllClifford(m')
  {
    hide UC.IsClifford;
    forall p | AllClifford(m) && p in m' ensures UC.IsClifford(m'[p].pending) {
      if p != q {
        Elsewhere(m, m', q, p);
      }
    }
  }

  /** Preflushing leaves the gates plain that are still tested. */
  lemma TouchedTested(prec: nat, m: States, m': States, q: Qubit)
    requires Touched(m, m', q) && (q in m ==> !m[q].isReordered)
    ensures Tested(prec, m) ==> Tested(prec, m')
  {
    hide U.IsPlain, UC.IsClifford;
    forall p | Tested(prec, m) && p in m' && !m'[p].isReordered ensures U.IsPlain(m'[p].pending, prec) {
      if p != q {
        Elsewhere(m, m', q, p);
      }
    }
  }

  lemma TrimmedTested(prec: nat, m: States, m': States)
    requires Trimmed(prec, m, m')
    ensures Tested(prec, m) ==> Tested(prec, m')
  {
    hide U.IsPlain, U.IsSfree;
  }

  lemma FlushedClifford(prec: nat, m: States, m': States)
    requires Flushed(prec, m, m')
    ensures AllClifford(m) ==> AllClifford(m')
  {
    hide UC.IsClifford, U.IsSfree;
  }

  lemma KeptClifford(m: States, m': States, ctl: Control, i: nat)
    requires Kept(m, m', ctl, i)
    ensures AllClifford(m) ==> AllClifford(m')
  {
    hide AllClifford;
  }

  lemma NextUnmarked(m: States, ctl: Control, i: nat)
    requires Unmarked(m, ctl, i) && i < |ctl|
    ensures ctl[i].qubit in m ==> !m[ctl[i].qubit].mustFlush && !m[ctl[i].qubit].isReordered
  {
  }

  lemma CtlStart(h: Circle, prec: nat, exact: bool, m: States, ctl: Control)
    ensures CtlMatched(h, prec, exact, m, ctl, 0, {}) && Kept(m, m, ctl, 0)
  {
    hide ItemMatched;
  }

  lemma InvertOneItem(ctl: Control, i: nat, t: set<Qubit>, inverted: bool)
    requires ValidControl(ctl) && i < |ctl| && forall q :: q in t ==> Uses(ctl[..i], q)
    ensures var t' := if inverted then t + {ctl[i].qubit} else t;
      InvertAll(ctl[..i + 1], t') == InvertAll(ctl[..i], t) + [if inverted then ctl[i].Invert() else ctl[i]]
      && (forall q :: q in t' ==> Uses(ctl[..i + 1], q)) && ctl[i].qubit !in t
  {
    var c, d := ctl[..i], ctl[..i + 1];
    forall q | Uses(c, q) ensures Uses(d, q) {
      var k :| 0 <= k < |c| && c[k].qubit == q;
      assert d[k].qubit == q;
    }
    assert d[i] == ctl[i];
    assert Uses(d, ctl[i].qubit);
  }

  /** A gate elsewhere is matched as before. */
  lemma MatchedElsewhere(h: Circle, prec: nat, exact: bool, m: States, m': States, q: Qubit, p: Qubit, r: Match)
    requires m' - {q} == m - {q} && p != q
    ensures Matched(h, prec, exact, m', p, r) == Matched(h, prec, exact, m, p, r)
  {
    Elsewhere(m, m', q, p);
    hide Fulfils, Matrix, U.IsSfree;
  }

  lemma ItemElsewhere(h: Circle, prec: nat, exact: bool, m: States, m': States, q: Qubit, p: Qubit, inverted: bool)
    requires m' - {q} == m - {q} && p != q
    ensures ItemMatched(h, prec, exact, m', p, inverted) == ItemMatched(h, prec, exact, m, p, inverted)
  {
    hide Matched;
    MatchedElsewhere(h, prec, exact, m, m', q, p, AsId);
    MatchedElsewhere(h, prec, exact, m, m', q, p, AsRz);
    MatchedElsewhere(h, prec, exact, m, m', q, p, AsXRz);
  }

  lemma CtlStep(h: Circle, prec: nat, exact: bool, m0: States, m: States, m': States, ctl: Control, i: nat, t: set<Qubit>, r: Match)
    requires ValidControl(ctl) && i < |ctl| && Touched(m, m', ctl[i].qubit) && ctl[i].qubit !in t
    requires CtlMatched(h, prec, exact, m, ctl, i, t) && Kept(m0, m, ctl, i) && Consistent(m) && Unmarked(m, ctl, i)
    requires (r == AsId || r == AsRz || r == AsXRz) && Matched(h, prec, exact, m', ctl[i].qubit, r)
    ensures var t' := if r == AsXRz then t + {ctl[i].qubit} else t;
      CtlMatched(h, prec, exact, m', ctl, i + 1, t') && Kept(m0, m', ctl, i + 1)
    ensures Consistent(m') && Unmarked(m', ctl, i + 1)
  {
    hide Matched;
    var q := ctl[i].qubit;
    var t' := if r == AsXRz then t + {q} else t;
    forall k | 0 <= k < i + 1 ensures ItemMatched(h, prec, exact, m', ctl[k].qubit, ctl[k].qubit in t') {
      if k < i {
        ItemElsewhere(h, prec, exact, m, m', q, ctl[k].qubit, ctl[k].qubit in t);
      }
    }
    hide ItemMatched;
    TouchedKeeps(m0, m, m', ctl, i);
  }

  lemma TouchedKeeps(m0: States, m: States, m': States, ctl: Control, i: nat)
    requires ValidControl(ctl) && i < |ctl| && Touched(m, m', ctl[i].qubit)
    requires Kept(m0, m, ctl, i) && Consistent(m) && Unmarked(m, ctl, i)
    ensures Kept(m0, m', ctl, i + 1) && Consistent(m') && Unmarked(m', ctl, i + 1)
  {
    var q := ctl[i].qubit;
    TouchedClifford(m, m', q);
    hide AllClifford;
    forall p | p in m' ensures p in m0 && (!m'[p].mustFlush || !m'[p].isReordered) {
      if p != q {
        Elsewhere(m, m', q, p);
      }
    }
    forall p | p in m0 && (forall k :: 0 <= k < i + 1 && k < |ctl| ==> ctl[k].qubit != p) ensures p in m' && m'[p] == m0[p] {
      assert ctl[i].qubit != p;
      Elsewhere(m, m', q, p);
    }
    forall k | i + 1 <= k < |ctl| && ctl[k].qubit in m' ensures !m'[ctl[k].qubit].mustFlush && !m'[ctl[k].qubit].isReordered {
      Elsewhere(m, m', q, ctl[k].qubit);
    }
  }

  // Controls with an h

  /** The items before `i` without the one at `at`. */
  ghost function Rest(ctl: Control, i: nat, at: Option<nat>): Control
    requires i <= |ctl|
  {
    if at.Some? && at.value < i then ctl[..at.value] + ctl[at.value + 1..i] else ctl[..i]
  }

  /** One item, asking for 1, is split off. */
  ghost predicate Split(ctl: Control, rest: Control, q: Qubit) {
    && Extends(rest, ctl, q, true) && Uses(ctl, q)
    && (forall p :: Uses(rest, p) <==> Uses(ctl, p) && p != q)
  }

  /** What has been collected of the first `i` items. */
  ghost predicate Gathered(ctl: Control, i: nat, c: Control, t: set<Qubit>, had: Option<Qubit>, at: Option<nat>) {
    && i <= |ctl| && c == InvertAll(Rest(ctl, i, at), t)
    && (forall q :: q in t ==> Uses(ctl[..i], q) && had != Some(q))
    && (if at.Some? then at.value < i && ctl[at.value].value && had == Some(ctl[at.value].qubit) else had == None)
  }

  lemma PrefixUses(ctl: Control, i: nat)
    requires ValidControl(ctl) && i < |ctl|
    ensures forall p :: Uses(ctl[..i], p) ==> Uses(ctl[..i + 1], p) && p != ctl[i].qubit
    ensures Uses(ctl[..i + 1], ctl[i].qubit)
  {
    forall p | Uses(ctl[..i], p) ensures Uses(ctl[..i + 1], p) && p != ctl[i].qubit {
      var k :| 0 <= k < i && ctl[..i][k].qubit == p;
      assert ctl[..i + 1][k].qubit == p;
    }
    assert ctl[..i + 1][i] == ctl[i];
  }

  lemma RestStep(ctl: Control, i: nat, at: Option<nat>)
    requires ValidControl(ctl) && i < |ctl| && (at.Some? ==> at.value < i)
    ensures Rest(ctl, i + 1, at) == Rest(ctl, i, at) + [ctl[i]] && Rest(ctl, i + 1, Some(i)) == ctl[..i]
    ensures forall k :: 0 <= k < |Rest(ctl, i, at)| ==> Rest(ctl, i, at)[k].qubit != ctl[i].qubit
  {
    var r := Rest(ctl, i, at);
    forall k | 0 <= k < |r| ensures r[k].qubit != ctl[i].qubit {
      assert r[k].qubit == ctl[if at.Some? && at.value <= k then k + 1 else k].qubit;
    }
  }

  lemma InvertSnoc(r: Control, x: ControlItem, t: set<Qubit>, inverted: bool)
    requires x.qubit !in t && forall k :: 0 <= k < |r| ==> r[k].qubit != x.qubit
    ensures InvertAll(r + [x], if inverted then t + {x.qubit} else t) == InvertAll(r, t) + [if inverted then x.Invert() else x]
  {
  }

  lemma GatheredStep(ctl: Control, i: nat, c: Control, t: set<Qubit>, had: Option<Qubit>, at: Option<nat>, inverted: bool)
    requires ValidControl(ctl) && i < |ctl| && Gathered(ctl, i, c, t, had, at)
    ensures ctl[i].qubit !in t && had != Some(ctl[i].qubit)
    ensures var t' := if inverted then t + {ctl[i].qubit} else t;
      Gathered(ctl, i + 1, c + [if inverted then ctl[i].Invert() else ctl[i]], t', had, at)
  {
    PrefixUses(ctl, i);
    RestStep(ctl, i, at);
    hide Uses, Rest;
    InvertSnoc(Rest(ctl, i, at), ctl[i], t, inverted);
    hide InvertAll;
  }

  lemma NoneGathered(ctl: Control, i: nat, c: Control, t: set<Qubit>, at: Option<nat>)
    requires Gathered(ctl, i, c, t, None, at)
    ensures at == None
  {
    hide InvertAll, Rest, Uses;
  }

  lemma GatheredSplit(ctl: Control, i: nat, c: Control, t: set<Qubit>)
    requires ValidControl(ctl) && i < |ctl| && Gathered(ctl, i, c, t, None, None) && ctl[i].value
    ensures Gathered(ctl, i + 1, c, t, Some(ctl[i].qubit), Some(i))
  {
    PrefixUses(ctl, i);
    RestStep(ctl, i, None);
    RestNone(ctl, i);
    hide Uses, Rest, InvertAll;
  }

  lemma RestNone(ctl: Control, i: nat)
    requires i <= |ctl|
    ensures Rest(ctl, i, None) == ctl[..i]
  {
  }

  lemma GatheredAll(ctl: Control, c: Control, t: set<Qubit>, had: Option<Qubit>, at: Option<nat>)
    requires ValidControl(ctl) && Gathered(ctl, |ctl|, c, t, had, at)
    ensures var rest := Rest(ctl, |ctl|, at);
      && c == InvertAll(rest, t) && (forall q :: q in t ==> Uses(rest, q)) && ValidControl(rest)
      && (if had.None? then rest == ctl else Split(ctl, rest, had.value))
  {
    var rest := Rest(ctl, |ctl|, at);
    assert ctl[..|ctl|] == ctl;
    if at.Some? {
      assert ctl[at.value + 1..|ctl|] == ctl[at.value + 1..];
      RemovedMeans(ctl, at.value, rest);
      assert Uses(ctl, ctl[at.value].qubit);
    }
    hide InvertAll;
  }

  /** The control qubits up to item `i` have been preflushed; one of them may be a Hadamard. */
  ghost predicate CtlHMatched(h: Circle, prec: nat, exact: bool, m: States, ctl: Control, i: nat, t: set<Qubit>, had: Option<Qubit>) {
    forall k :: 0 <= k < i <= |ctl| ==>
      if had == Some(ctl[k].qubit) then Matched(h, prec, exact, m, ctl[k].qubit, AsHRz)
      else ItemMatched(h, prec, exact, m, ctl[k].qubit, ctl[k].qubit in t)
  }

  lemma CtlHStart(h: Circle, prec: nat, exact: bool, m: States, ctl: Control)
    ensures CtlHMatched(h, prec, exact, m, ctl, 0, {}, None) && Kept(m, m, ctl, 0) && Gathered(ctl, 0, [], {}, None, None)
  {
    hide ItemMatched, Matched;
  }

  lemma CtlHStep(h: Circle, prec: nat, exact: bool, m0: States, m: States, m': States, ctl: Control, i: nat, t: set<Qubit>,
                 had: Option<Qubit>, r: Match, c: Control, at: Option<nat>)
    requires ValidControl(ctl) && i < |ctl| && Touched(m, m', ctl[i].qubit) && Gathered(ctl, i, c, t, had, at)
    requires CtlHMatched(h, prec, exact, m, ctl, i, t, had) && Kept(m0, m, ctl, i) && Consistent(m) && Unmarked(m, ctl, i)
    requires r == AsId || r == AsRz || r == AsXRz || (r == AsHRz && had == None && ctl[i].value)
    requires Matched(h, prec, exact, m', ctl[i].qubit, r)
    ensures var t' := if r == AsXRz then t + {ctl[i].qubit} else t;
      var had' := if r == AsHRz then Some(ctl[i].qubit) else had;
      && CtlHMatched(h, prec, exact, m', ctl, i + 1, t', had') && Kept(m0, m', ctl, i + 1)
      && (if r == AsHRz then Gathered(ctl, i + 1, c, t, had', Some(i))
          else Gathered(ctl, i + 1, c + [if r == AsXRz then ctl[i].Invert() else ctl[i]], t', had, at))
    ensures Consistent(m') && Unmarked(m', ctl, i + 1)
  {
    GatheredStep(ctl, i, c, t, had, at, r == AsXRz);
    if r == AsHRz {
      NoneGathered(ctl, i, c, t, at);
      GatheredSplit(ctl, i, c, t);
    }
    hide *;
    CtlHEarlier(h, prec, exact, m, m', ctl, i, t, had);
    CtlHNext(h, prec, exact, m', ctl, i, t, had, r);
    TouchedKeeps(m0, m, m', ctl, i);
  }

  /** The items before are as they were. */
  lemma CtlHEarlier(h: Circle, prec: nat, exact: bool, m: States, m': States, ctl: Control, i: nat, t: set<Qubit>, had: Option<Qubit>)
    requires ValidControl(ctl) && i < |ctl| && Touched(m, m', ctl[i].qubit) && CtlHMatched(h, prec, exact, m, ctl, i, t, had)
    ensures CtlHMatched(h, prec, exact, m', ctl, i, t, had)
  {
    hide Matched, ItemMatched;
    forall k | 0 <= k < i
      ensures if had == Some(ctl[k].qubit) then Matched(h, prec, exact, m', ctl[k].qubit, AsHRz)
              else ItemMatched(h, prec, exact, m', ctl[k].qubit, ctl[k].qubit in t) {
      assert ctl[k].qubit < ctl[i].qubit;
      MatchedElsewhere(h, prec, exact, m, m', ctl[i].qubit, ctl[k].qubit, AsHRz);
      ItemElsewhere(h, prec, exact, m, m', ctl[i].qubit, ctl[k].qubit, ctl[k].qubit in t);
    }
  }

  lemma CtlHNext(h: Circle, prec: nat, exact: bool, m: States, ctl: Control, i: nat, t: set<Qubit>, had: Option<Qubit>, r: Match)
    requires ValidControl(ctl) && i < |ctl| && ctl[i].qubit !in t && had != Some(ctl[i].qubit)
    requires CtlHMatched(h, prec, exact, m, ctl, i, t, had) && Matched(h, prec, exact, m, ctl[i].qubit, r)
    requires r == AsId || r == AsRz || r == AsXRz || (r == AsHRz && had == None)
    ensures CtlHMatched(h, prec, exact, m, ctl, i + 1, if r == AsXRz then t + {ctl[i].qubit} else t,
                        if r == AsHRz then Some(ctl[i].qubit) else had)
  {
    hide Matched;
    var q := ctl[i].qubit;
    assert r != AsHRz ==> ItemMatched(h, prec, exact, m, q, r == AsXRz);
    hide ItemMatched;
    forall k | 0 <= k < i ensures ctl[k].qubit != q {
    }
  }

  // Controlled x

  lemma SameAtCall(h: Circle, exact: bool, c0: Circuit, c1: Circuit, c2: Circuit, d: Circuit, g: Gate)
    requires SameAt(h, exact, c0, c1) && SameAt(h, exact, c1, c2) && SameAt(h, exact, c2 + [g], d)
    ensures SameAt(h, exact, c0 + [g], d)
  {
    hide Same;
    if exact {
      SameTrans(h, c0, c1, c2);
      SameSuffix(h, c0, c2, [g]);
      SameTrans(h, c0 + [g], c2 + [g], d);
    }
  }

  /** Composing two gates is exact: it is unless the floating-point path is taken, which then has to be. */
  ghost predicate ComposesExactly(h: Circle, numeric: U.Numeric, a: U.U3, b: U.U3) {
    UC.IsExact(h, numeric, a.theta, Wrap(a.phi + b.lambda), b.theta)
  }

  /** And it stays on the grid. */
  ghost predicate ComposesWell(h: Circle, numeric: U.Numeric, prec: nat, a: U.U3, b: U.U3) {
    && ComposesExactly(h, numeric, a, b)
    && var z := Wrap(a.phi + b.lambda); U.IsNumeric(a.theta, z, b.theta) ==> U.IsFine(numeric(a.theta, z, b.theta), prec)
  }

  /** The pairs that have been composed since have been composed well. */
  ghost predicate NewWell(h: Circle, numeric: U.Numeric, prec: nat, was: seq<(U.U3, U.U3)>, now: seq<(U.U3, U.U3)>) {
    was <= now && forall i :: |was| <= i < |now| ==> ComposesWell(h, numeric, prec, now[i].0, now[i].1)
  }

  lemma NewWellOne(h: Circle, numeric: U.Numeric, prec: nat, was: seq<(U.U3, U.U3)>, a: U.U3, b: U.U3)
    ensures NewWell(h, numeric, prec, was, was + [(a, b)]) == ComposesWell(h, numeric, prec, a, b)
    ensures NewWell(h, numeric, prec, was, was)
  {
    hide ComposesWell;
    var now := was + [(a, b)];
    assert now[|was|] == (a, b);
  }

  lemma NewWellJoin(h: Circle, numeric: U.Numeric, prec: nat, was: seq<(U.U3, U.U3)>, mid: seq<(U.U3, U.U3)>, now: seq<(U.U3, U.U3)>)
    requires was <= mid <= now
    ensures NewWell(h, numeric, prec, was, now) == (NewWell(h, numeric, prec, was, mid) && NewWell(h, numeric, prec, mid, now))
  {
    hide ComposesWell;
    forall i | |was| <= i < |mid| ensures mid[i] == now[i] {
    }
  }

  /** Clifford gates never take the floating-point path. */
  lemma CliffordsWell(h: Circle, numeric: U.Numeric, prec: nat, a: U.U3, b: U.U3)
    requires UC.IsClifford(a) && UC.IsClifford(b)
    ensures ComposesWell(h, numeric, prec, a, b) && UC.IsClifford(U.Compose(numeric, a, b))
  {
    hide *;
    UC.CliffordsCompose(numeric, a, b);
    NotNumeric(h, numeric, prec, a, b);
  }

  lemma NotNumeric(h: Circle, numeric: U.Numeric, prec: nat, a: U.U3, b: U.U3)
    ensures !U.IsNumeric(a.theta, Wrap(a.phi + b.lambda), b.theta) ==> ComposesWell(h, numeric, prec, a, b)
  {
    hide U.IsNumeric;
  }

  lemma CliffordAt(m: States, q: Qubit)
    ensures AllClifford(m) && q in m ==> UC.IsClifford(m[q].pending)
  {
  }

  lemma CliffordWith(m: States, q: Qubit, st: QubitState)
    ensures AllClifford(m) && UC.IsClifford(st.pending) ==> AllClifford(m[q := st])
  {
    hide UC.IsClifford;
  }

  lemma ComposedExactly(h: Circle, numeric: U.Numeric, a: U.U3, b: U.U3)
    requires IsCircle(h) && ComposesExactly(h, numeric, a, b)
    ensures Alike(Times(Matrix(h, b), Matrix(h, a)), Matrix(h, U.Compose(numeric, a, b)))
  {
    hide Alike, IsCircle, Matrix, UC.IsExact, UC.Yzy;
    UC.ComposeIsProduct(h, numeric, a, b);
  }

  lemma ComposedWell(h: Circle, numeric: U.Numeric, prec: nat, a: U.U3, b: U.U3)
    requires U.IsFine(a, prec) && U.IsFine(b, prec) && ComposesWell(h, numeric, prec, a, b)
    ensures U.IsFine(U.Compose(numeric, a, b), prec)
  {
    ComposeIsFine(numeric, a, b, prec);
    hide U.IsFine;
  }

  lemma KeptMatched(h: Circle, prec: nat, exact: bool, m: States, m': States, ctl: Control, q: Qubit, r: Match)
    requires Kept(m, m', ctl, |ctl|) && !Uses(ctl, q) && Matched(h, prec, exact, m, q, r)
    ensures Matched(h, prec, exact, m', q, r)
  {
    hide Fulfils, Matrix, U.IsSfree;
    assert forall k :: 0 <= k < |ctl| ==> ctl[k].qubit != q;
  }

  /** Preflushed and flushed controls are ready for the rewrite. */
  lemma ControlsAreReady(h: Circle, prec: nat, exact: bool, m: States, m': States, ctl: Control, t: set<Qubit>)
    requires exact && CtlMatched(h, prec, exact, m, ctl, |ctl|, t) && Flushed(prec, m, m')
    ensures ControlsReady(h, Gates(m'), ctl, t)
  {
    hide Flushed, Matrix, Matched;
    forall q | Uses(ctl, q)
      ensures if q in t then q in m' && ControlGate(h, m'[q].pending, true) else q in m' ==> ControlGate(h, m'[q].pending, false) {
      var k :| 0 <= k < |ctl| && ctl[k].qubit == q;
      assert ItemMatched(h, prec, exact, m, q, q in t);
      ItemSettles(h, prec, exact, m, m', q, q in t);
    }
    hide ControlGate;
  }

  lemma ItemSettles(h: Circle, prec: nat, exact: bool, m: States, m': States, q: Qubit, inverted: bool)
    requires exact && ItemMatched(h, prec, exact, m, q, inverted) && Flushed(prec, m, m')
    ensures if inverted then q in m' && ControlGate(h, m'[q].pending, true) else q in m' ==> ControlGate(h, m'[q].pending, false)
  {
    hide Flushed, Matrix, Matched;
    if inverted {
      MatchedSettles(h, prec, exact, m, m', q, AsXRz);
    } else if Matched(h, prec, exact, m, q, AsId) {
      MatchedSettles(h, prec, exact, m, m', q, AsId);
    } else {
      MatchedSettles(h, prec, exact, m, m', q, AsRz);
    }
  }

  lemma PlainPasses(h: Circle, prec: nat, exact: bool, m: States, m': States, ctl: Control, q: Qubit, r: Match, t: set<Qubit>)
    requires IsCircle(h) && exact && !Uses(ctl, q) && (r == AsId || r == AsRx) && Matched(h, prec, exact, m, q, r)
    requires CtlMatched(h, prec, exact, m, ctl, |ctl|, t) && Flushed(prec, m, m') && forall p :: p in t ==> Uses(ctl, p)
    ensures PassesAs(h, Singles(h, Gates(m')), CtlOp(ctl, Op.X(q)), CtlOp(InvertAll(ctl, t), Op.X(q)))
  {
    hide IsCircle, Matched, CtlMatched, Flushed, PassesAs, Singles, Matrix, ControlsReady, InvertAll;
    MatchedSettles(h, prec, exact, m, m', q, r);
    ControlsAreReady(h, prec, exact, m, m', ctl, t);
    PassX(h, Gates(m'), ctl, q, t);
  }

  // Controlled x onto an h

  lemma SplitAvoids(ctl: Control, rest: Control, had: Option<Qubit>, q: Qubit)
    requires !Uses(ctl, q) && if had.None? then rest == ctl else Split(ctl, rest, had.value)
    ensures !Uses(rest, q) && (had.Some? ==> !Uses(rest, had.value) && had.value != q)
  {
    hide Extends;
  }

  /** The first preflush of a call leaves the other qubits unmarked. */
  lemma TouchedQuiet(m: States, m': States, q: Qubit, ctl: Control)
    requires Quiet(m) && Touched(m, m', q)
    ensures Consistent(m') && (!Uses(ctl, q) ==> Unmarked(m', ctl, 0))
  {
    forall p | p in m' ensures !m'[p].mustFlush || !m'[p].isReordered {
      if p != q {
        Elsewhere(m, m', q, p);
      }
    }
    if !Uses(ctl, q) {
      forall k | 0 <= k < |ctl| && ctl[k].qubit in m' ensures !m'[ctl[k].qubit].mustFlush && !m'[ctl[k].qubit].isReordered {
        assert ctl[k].qubit != q;
        Elsewhere(m, m', q, ctl[k].qubit);
      }
    }
  }

  /** Composing with x never takes the floating-point path. */
  lemma XComposes(h: Circle, numeric: U.Numeric, prec: nat, a: U.U3)
    ensures ComposesWell(h, numeric, prec, a, U.X) && ComposesExactly(h, numeric, a, U.X) && UC.IsClifford(U.X) && (prec >= 2 ==> U.IsFine(U.X, prec))
  {
    if prec >= 2 {
      TurnsOnGrid(prec);
    }
    hide OnGrid, Alike, UC.Yzy, Matrix, Wrap;
  }

  lemma XCall(h: Circle, exact: bool, q: Qubit, c: Circuit, d: Circuit, ctl: Control)
    requires IsCircle(h) && SameAt(h, exact, c + [Pend(h, q, U.X)], d) && ctl == []
    ensures SameAt(h, exact, c + [Controlled(CtlOp(ctl, Op.X(q)))], d)
  {
    hide IsCircle, Same, Matrix;
    XIsFlip(h, q);
    SameSym(h, [Pend(h, q, U.X)], [Controlled(FlipOp(q))]);
    SamePrefix(h, c, [Controlled(FlipOp(q))], [Pend(h, q, U.X)]);
    if exact {
      SameTrans(h, c + [Controlled(FlipOp(q))], c + [Pend(h, q, U.X)], d);
    }
  }

  lemma XIsFlip(h: Circle, q: Qubit)
    requires IsCircle(h)
    ensures Same(h, [Pend(h, q, U.X)], [Controlled(FlipOp(q))])
  {
    hide IsCircle, Same, Matrix, Alike, Times, RzMat;
    assert U.ToCxRz(U.X, 64) == Some((true, 0));
    CxRzProduct(h, U.X, 64);
    UC.RzNothing(h, XMat);
    XAsOp(h, q, Matrix(h, U.X));
  }

  lemma CtlHIsCtl(h: Circle, prec: nat, exact: bool, m: States, ctl: Control, t: set<Qubit>)
    requires CtlHMatched(h, prec, exact, m, ctl, |ctl|, t, None)
    ensures CtlMatched(h, prec, exact, m, ctl, |ctl|, t)
  {
    hide ItemMatched;
  }

  /** What a flush leaves of a control whose Hadamard has been split off. */
  lemma SplitReady(h: Circle, prec: nat, exact: bool, m: States, m': States, ctl: Control, rest: Control, p: Qubit, t: set<Qubit>)
    requires exact && CtlHMatched(h, prec, exact, m, ctl, |ctl|, t, Some(p)) && Split(ctl, rest, p) && Flushed(prec, m, m')
    ensures ControlsReady(h, Gates(m'), rest, t) && p in m' && TurnsPhaseToX(Matrix(h, m'[p].pending))
  {
    hide Flushed, Matrix, Matched, Extends;
    forall q | Uses(rest, q)
      ensures if q in t then q in m' && ControlGate(h, m'[q].pending, true) else q in m' ==> ControlGate(h, m'[q].pending, false) {
      var k :| 0 <= k < |ctl| && ctl[k].qubit == q;
      assert ItemMatched(h, prec, exact, m, q, q in t);
      ItemSettles(h, prec, exact, m, m', q, q in t);
    }
    var k :| 0 <= k < |ctl| && ctl[k].qubit == p;
    MatchedSettles(h, prec, exact, m, m', p, AsHRz);
    hide ControlGate;
  }

  /** The rewrite of a controlled x onto a pending h. */
  lemma HPasses(h: Circle, prec: nat, exact: bool, m: States, m': States, ctl: Control, rest: Control, q: Qubit, inverted: bool,
                had: Option<Qubit>, t: set<Qubit>, c: Control)
    requires IsCircle(h) && exact && !Uses(ctl, q) && Flushed(prec, m, m')
    requires Matched(h, prec, exact, m, q, if inverted then AsXHRx else AsHRx)
    requires CtlHMatched(h, prec, exact, m, ctl, |ctl|, t, had) && forall p :: p in t ==> Uses(rest, p)
    requires if had.None? then rest == ctl else Split(ctl, rest, had.value)
    requires forall b: Bits :: Holds(c, b) <==> ((q in b) == !inverted) && Holds(InvertAll(rest, t), b)
    ensures PassesAs(h, Singles(h, Gates(m')), CtlOp(ctl, Op.X(q)), CtlOp(c, if had.Some? then Op.X(had.value) else Gphase(PI)))
  {
    hide IsCircle, Matched, CtlHMatched, CtlMatched, Flushed, PassesAs, Singles, Matrix, ControlsReady, InvertAll,
      Holds, Append, Extends;
    MatchedSettles(h, prec, exact, m, m', q, if inverted then AsXHRx else AsHRx);
    var d := InvertAll(rest, t);
    var o := CtlOp(ctl, Op.X(q));
    AppendMeans(d, q, !inverted);
    if had.Some? {
      SplitReady(h, prec, exact, m, m', ctl, rest, had.value, t);
      PassXRetargeted(h, Gates(m'), ctl, rest, q, inverted, had.value, t);
      Rewritten(h, Singles(h, Gates(m')), o, CtlOp(Append(d, q, !inverted), Op.X(had.value)), CtlOp(c, Op.X(had.value)));
    } else {
      CtlHIsCtl(h, prec, exact, m, ctl, t);
      ControlsAreReady(h, prec, exact, m, m', ctl, t);
      PassXAsPhase(h, Gates(m'), ctl, q, inverted, t);
      Rewritten(h, Singles(h, Gates(m')), o, CtlOp(Append(d, q, !inverted), Gphase(PI)), CtlOp(c, Gphase(PI)));
    }
  }

  // Swaps, phases and flushes

  /** What a forced preflush has looked at must go; the rest is as the last call left it. */
  ghost predicate Waiting(m: States, todo: set<Qubit>) {
    forall q :: q in m ==> !m[q].isReordered && m[q].mustFlush == (q !in todo)
  }

  lemma AllWait(m: States)
    requires Quiet(m)
    ensures Waiting(m, m.Keys)
  {
  }

  lemma WaitingAt(m: States, todo: set<Qubit>, q: Qubit)
    requires Waiting(m, todo) && q in todo
    ensures q in m ==> !m[q].mustFlush && !m[q].isReordered
  {
  }

  lemma WaitingStep(h: Circle, prec: nat, exact: bool, m: States, m': States, todo: set<Qubit>, q: Qubit)
    requires Waiting(m, todo) && q in todo && Touched(m, m', q) && Matched(h, prec, exact, m', q, AsId)
    ensures Waiting(m', todo - {q})
  {
    forall p | p in m' ensures !m'[p].isReordered && m'[p].mustFlush == (p !in todo - {q}) {
      if p != q {
        Elsewhere(m, m', q, p);
      }
    }
  }

  lemma NothingLeft(prec: nat, m: States, m': States)
    requires Waiting(m, {}) && Flushed(prec, m, m')
    ensures m' == map[]
  {
    hide U.IsSfree;
    forall q ensures q !in m' {
    }
  }

  lemma QuietUnmarked(m: States, ctl: Control)
    requires Quiet(m)
    ensures Consistent(m) && Unmarked(m, ctl, 0)
  {
  }

  lemma KeptQuiet(m: States, m': States, ctl: Control, q: Qubit)
    requires Quiet(m) && Kept(m, m', ctl, |ctl|) && !Uses(ctl, q)
    ensures q in m' ==> !m'[q].mustFlush && !m'[q].isReordered
  {
    assert forall k :: 0 <= k < |ctl| ==> ctl[k].qubit != q;
  }

  /** Preflushing a qubit outside of the control does not disturb the control. */
  lemma TouchedFree(h: Circle, prec: nat, exact: bool, m: States, m': States, ctl: Control, q: Qubit, t: set<Qubit>)
    requires Touched(m, m', q) && !Uses(ctl, q) && CtlMatched(h, prec, exact, m, ctl, |ctl|, t) && Consistent(m)
    ensures CtlMatched(h, prec, exact, m', ctl, |ctl|, t) && Consistent(m')
  {
    hide Matched;
    forall k | 0 <= k < |ctl| ensures ItemMatched(h, prec, exact, m', ctl[k].qubit, ctl[k].qubit in t) {
      assert ctl[k].qubit != q;
      assert ItemMatched(h, prec, exact, m, ctl[k].qubit, ctl[k].qubit in t);
      ItemElsewhere(h, prec, exact, m, m', q, ctl[k].qubit, ctl[k].qubit in t);
    }
    forall p | p in m' ensures !m'[p].mustFlush || !m'[p].isReordered {
      if p != q {
        Elsewhere(m, m', q, p);
      }
    }
  }

  lemma TouchedElsewhere(m: States, m': States, q: Qubit, p: Qubit)
    requires Touched(m, m', q) && p != q
    ensures (p in m' <==> p in m) && (p in m ==> m'[p] == m[p])
  {
    Elsewhere(m, m', q, p);
  }

  lemma MatchedUntouched(h: Circle, prec: nat, exact: bool, m: States, m': States, q: Qubit, p: Qubit, r: Match)
    requires Touched(m, m', q) && p != q
    ensures Matched(h, prec, exact, m', p, r) == Matched(h, prec, exact, m, p, r)
  {
    hide Matched;
    MatchedElsewhere(h, prec, exact, m, m', q, p, r);
  }

  lemma SwapPasses(h: Circle, prec: nat, exact: bool, m: States, m': States, ctl: Control, q1: Qubit, q2: Qubit, t: set<Qubit>)
    requires exact && Matched(h, prec, exact, m, q1, AsId) && Matched(h, prec, exact, m, q2, AsId) && Flushed(prec, m, m')
    requires CtlMatched(h, prec, exact, m, ctl, |ctl|, t) && forall p :: p in t ==> Uses(ctl, p)
    ensures PassesAs(h, Singles(h, Gates(m')), CtlOp(ctl, Swap(q1, q2)), CtlOp(InvertAll(ctl, t), Swap(q1, q2)))
  {
    hide Matched, CtlMatched, Flushed, PassesAs, Singles, ControlsReady, InvertAll;
    MatchedSettles(h, prec, exact, m, m', q1, AsId);
    MatchedSettles(h, prec, exact, m, m', q2, AsId);
    ControlsAreReady(h, prec, exact, m, m', ctl, t);
    PassSwap(h, Gates(m'), ctl, q1, q2, t);
  }

  lemma SplitOnce(ctl: Control, rest: Control, p: Qubit)
    requires Split(ctl, rest, p)
    ensures !Uses(rest, p)
  {
    hide Extends;
  }

  /** The rewrite of a controlled z. */
  lemma PhasePasses(h: Circle, prec: nat, exact: bool, m: States, m': States, ctl: Control, rest: Control, a: Angle,
                    had: Option<Qubit>, t: set<Qubit>)
    requires IsCircle(h) && exact && Flushed(prec, m, m') && Round(a, prec) == PI && Angles.IsPlain(a, prec)
    requires CtlHMatched(h, prec, exact, m, ctl, |ctl|, t, had) && forall p :: p in t ==> Uses(rest, p)
    requires if had.None? then rest == ctl else Split(ctl, rest, had.value)
    ensures PassesAs(h, Singles(h, Gates(m')), CtlOp(ctl, Gphase(a)),
                     CtlOp(InvertAll(rest, t), if had.Some? then Op.X(had.value) else Gphase(a)))
  {
    hide IsCircle, CtlHMatched, CtlMatched, Flushed, PassesAs, Singles, Matrix, ControlsReady, InvertAll, Extends;
    hide Round;
    if had.Some? {
      SplitReady(h, prec, exact, m, m', ctl, rest, had.value, t);
      PassPhaseAsX(h, Gates(m'), ctl, rest, had.value, t);
    } else {
      CtlHIsCtl(h, prec, exact, m, ctl, t);
      ControlsAreReady(h, prec, exact, m, m', ctl, t);
      PassPhase(h, Gates(m'), ctl, a, t);
    }
  }

  /** A phase without a control is the global phase. */
  lemma NoControl(h: Circle, exact: bool, c: Circuit, ctl: Control, a: Angle)
    requires IsCircle(h) && ctl == []
    ensures SameAt(h, exact, c + [Controlled(CtlOp(ctl, Gphase(a)))], c)
  {
    hide IsCircle, Same;
    GlobalPhase(h, a);
    SamePrefix(h, c, [Controlled(CtlOp([], Gphase(a)))], []);
    assert c + [] == c;
  }

  /** Composing with rz never takes the floating-point path. */
  lemma RzComposes(h: Circle, numeric: U.Numeric, prec: nat, a: U.U3, z: Angle)
    ensures ComposesWell(h, numeric, prec, a, U.Rz(z)) && ComposesExactly(h, numeric, a, U.Rz(z))
  {
    hide Alike, UC.Yzy, Matrix, U.IsFine, Wrap;
  }

  lemma RzFine(a: Angle, z: Angle, prec: nat)
    requires z == a || z == Neg(a)
    ensures prec >= 2 ==> U.IsFine(U.Rz(z), prec) == OnGrid(a, prec)
    ensures a % PI_1_2 == 0 ==> UC.IsClifford(U.Rz(z))
  {
    TurnsOnGrid(prec);
    GridNeg(a, prec);
    if a % PI_1_2 == 0 {
      NegQuarters(a);
    }
    hide OnGrid, Neg;
  }

  /** A phase under one control is an rz; with an inverted control, of the opposite angle. */
  lemma OneControl(h: Circle, exact: bool, c: Circuit, d: Circuit, ctl: Control, a: Angle)
    requires IsCircle(h) && |ctl| == 1
    requires SameAt(h, exact, c + [Pend(h, ctl[0].qubit, U.Rz(if ctl[0].value then a else Neg(a)))], d)
    ensures SameAt(h, exact, c + [Controlled(CtlOp(ctl, Gphase(a)))], d)
  {
    hide IsCircle, Same, Matrix, Pend;
    var q, v := ctl[0].qubit, ctl[0].value;
    var p, o := Pend(h, q, U.Rz(if v then a else Neg(a))), Controlled(CtlOp(ctl, Gphase(a)));
    assert ctl == [ControlItem(q, v)];
    RzIsPhase(h, q, v, a);
    SamePrefix(h, c, [o], [p]);
    if exact {
      SameTrans(h, c + [o], c + [p], d);
    }
  }

  lemma RzIsPhase(h: Circle, q: Qubit, v: bool, a: Angle)
    requires IsCircle(h)
    ensures Same(h, [Controlled(PhaseOp(q, v, a))], [Pend(h, q, U.Rz(if v then a else Neg(a)))])
  {
    hide IsCircle, Same, Phase, Euler, Alike;
    PhaseIsDiagonal(h, q, v, a);
    var m := if v then Mat(ONE, ZERO, ZERO, Phase(h, a)) else Mat(Phase(h, a), ZERO, ZERO, ONE);
    var z := if v then a else Neg(a);
    UC.EulerAtZero(h, z, 0);
    RzMatIs(h, z);
    DiagonalsAlike(h, v, a);
    AlikeSame(h, q, m, RzMat(h, z));
    SameTrans(h, [Controlled(PhaseOp(q, v, a))], [Single(q, m)], [Single(q, RzMat(h, z))]);
  }

  lemma DiagonalsAlike(h: Circle, v: bool, a: Angle)
    requires IsCircle(h)
    ensures Alike(if v then Mat(ONE, ZERO, ZERO, Phase(h, a)) else Mat(Phase(h, a), ZERO, ZERO, ONE),
                  Mat(ONE, ZERO, ZERO, Phase(h, if v then a else Neg(a))))
  {
    hide *;
    if v {
      AlikeRefl(Mat(ONE, ZERO, ZERO, Phase(h, a)));
    } else {
      var x: int := a;
      NegIs(a);
      PhaseWraps(h, -x);
      PhaseAdds(h, -x, x);
      assert -(-x) == x;
      MulCommutes(Phase(h, -x), Phase(h, x));
      Unscaled(Phase(h, -x), Phase(h, x));
    }
  }

  lemma Unscaled(u: Complex, p: Complex)
    requires IsUnit(u) && Mul(u, p) == ONE
    ensures Alike(Mat(p, ZERO, ZERO, ONE), Mat(ONE, ZERO, ZERO, u))
  {
    hide Mul, Alike, IsUnit;
    Units(u);
    AlikeBy(Mat(p, ZERO, ZERO, ONE), Mat(ONE, ZERO, ZERO, u), u);
  }

  // Measuring

  /** A qubit whose pending gate, if any, only turns its amplitudes or flips it. */
  ghost predicate Measurable(h: Circle, m: States, q: Qubit, flips: bool) {
    if flips then q in m && ControlGate(h, m[q].pending, true) else q in m ==> ControlGate(h, m[q].pending, false)
  }

  lemma MatchedMeasurable(h: Circle, prec: nat, exact: bool, m: States, m': States, q: Qubit, r: Match)
    requires exact && Matched(h, prec, exact, m, q, r) && Flushed(prec, m, m') && (r == AsId || r == AsRz || r == AsXRz)
    ensures Measurable(h, m', q, r == AsXRz)
  {
    hide Flushed, Matrix, Matched;
    MatchedSettles(h, prec, exact, m, m', q, r);
  }

  lemma NotMarked(m: States, q: Qubit)
    requires Quiet(m)
    ensures q in m ==> !m[q].mustFlush && !m[q].isReordered
  {
  }

  lemma MeasuredCall(h: Circle, exact: bool, applied: Circuit, ops: OpSeq, m: States, q: Qubit, flips: bool, v: bool, s: Complex)
    requires q !in Q.WritesOf(ops) && (exact ==> Measurable(h, m, q, flips))
    ensures SameAt(h, exact, Log(h, applied, ops, Gates(m)) + [Single(q, Projection(v != flips, s))],
                   Log(h, applied + [Single(q, Projection(v, s))], ops, Gates(m)))
  {
    hide Same, Log, ControlGate, Projection;
    if exact {
      M.MeasuredLog(h, applied, ops, Gates(m), q, flips, v, s);
    }
  }

  lemma FactorScales(skip: bool, k: Complex, scale: Complex -> Complex, s: Complex)
    requires (forall x :: scale(x) == Mul(k, x)) && s == k && (skip ==> k == ONE)
    ensures forall x :: SM.Factor(skip, scale)(x) == Mul(s, x)
  {
    forall x ensures SM.Factor(skip, scale)(x) == Mul(s, x) {
      Units(x);
      hide Mul;
    }
  }

  /** The weights of the two sides; of a qubit that the vector has no room for, all is on the side of zero. */
  ghost predicate AreWeights(m: Stored, q: Qubit, r0: real, r1: real) {
    || (r0 == SideMass(m, q, false) && r1 == SideMass(m, q, true))
    || (r0 == 1.0 && r1 == 0.0 && SideMass(m, q, true) == 0.0)
  }

  lemma WeightsAddUp(m: Stored, q: Qubit, r0: real, r1: real)
    requires AreWeights(m, q, r0, r1)
    ensures r1 != 0.0 || r0 != 1.0 ==> r0 + r1 == Mass(m)
    ensures r0 != 0.0 && r1 != 0.0 ==> r0 == SideMass(m, q, false) && r1 == SideMass(m, q, true)
    ensures Mass(m) == 1.0 ==> r0 + r1 == 1.0 && r0 == SideMass(m, q, false) && r1 == SideMass(m, q, true)
  {
    SidesAddUp(m, q);
    hide Mass, SideMass;
  }

  /** The reported probability of 1 is the share of 1 in the weight of the logical state, whatever vector denotes that. */
  lemma ReportedShare(h: Circle, seen: Stored, start: Vec, applied: Circuit, ops: OpSeq, m: States, q: Qubit, flips: bool,
                      r0: real, r1: real, was: Circuit, l: Stored)
    requires IsCircle(h) && AllValid(ops) && q !in Q.WritesOf(ops) && Measurable(h, m, q, flips)
    requires Denotes(h, seen, start, applied) && IsLevel(applied) && AreWeights(seen, q, r0, r1) && r0 + r1 != 0.0
    requires Same(h, was, Log(h, Clean(applied), ops, Gates(m))) && Denotes(h, l, start, was)
    ensures SideMass(l, q, true) == Product((if flips then r0 else r1) / (r0 + r1), Mass(l))
  {
    CleanLevel(applied);
    hide IsCircle, AllValid, Q.WritesOf, Denotes, IsLevel, Same, Log, Clean, ControlGate, Mass, SideMass;
    DenotesSame(h, l, start, was, Log(h, applied, ops, Gates(m)));
    BR.WeightsOfLogical(h, seen, start, applied, ops, Gates(m), q, flips, l, true);
    BR.WeightsOfLogical(h, seen, start, applied, ops, Gates(m), q, flips, l, false);
    SidesAddUp(l, q);
    SidesAddUp(seen, q);
    ShareIs(r0, r1, SideMass(seen, q, false));
  }

  /** In whatever vector denotes the circuit, the states that have the qubit set have this share of the weight. */
  ghost predicate IsShare(h: Circle, start: Vec, c: Circuit, q: Qubit, p: real) {
    forall l: Stored {:trigger Denotes(h, l, start, c)} :: Denotes(h, l, start, c) ==> SideMass(l, q, true) == Product(p, Mass(l))
  }

  lemma ReportedShares(h: Circle, seen: Stored, start: Vec, applied: Circuit, g: Gate, ops: OpSeq, m: States, q: Qubit, flips: bool,
                       r0: real, r1: real, was: Circuit)
    requires IsCircle(h) && AllValid(ops) && q !in Q.WritesOf(ops) && Measurable(h, m, q, flips)
    requires Denotes(h, seen, start, applied) && AreWeights(seen, q, r0, r1) && r0 + r1 != 0.0
    requires SameAt(h, true, was, Log(h, Clean(applied), ops, Gates(m)))
    ensures IsLevel(applied + [g]) ==> IsShare(h, start, was, q, (if flips then r0 else r1) / (r0 + r1))
  {
    hide IsCircle, AllValid, Q.WritesOf, Measurable, Denotes, AreWeights, Same, Log, Clean, IsLevel, Mass, SideMass, Product;
    LevelBefore(applied, g);
    if IsLevel(applied) {
      forall l: Stored | Denotes(h, l, start, was) ensures SideMass(l, q, true) == Product((if flips then r0 else r1) / (r0 + r1), Mass(l)) {
        ReportedShare(h, seen, start, applied, ops, m, q, flips, r0, r1, was, l);
      }
    }
  }

  lemma ShareIs(r0: real, r1: real, w: real)
    requires r0 + r1 != 0.0
    ensures Product(r0 / (r0 + r1), r0 + r1) == r0 && Product(r1 / (r0 + r1), r0 + r1) == r1
    ensures r0 == 1.0 && r1 == 0.0 ==> Product(r0 / (r0 + r1), w) == w && Product(r1 / (r0 + r1), w) == 0.0
  {
  }

  lemma LevelBefore(c: Circuit, g: Gate)
    ensures IsLevel(c + [g]) ==> IsLevel(c)
  {
    if IsLevel(c + [g]) {
      forall i | 0 <= i < |c| ensures !c[i].Turned? {
        assert (c + [g])[i] == c[i];
      }
    }
  }

  lemma NoSideMass(m: Stored, q: Qubit, v: bool)
    requires M.OnlySide(m, q, !v)
    ensures SideMass(m, q, v) == 0.0
  {
    hide Norm2;
    SumWider({}, SideStates(m.Keys, q, v), NormAt(m));
  }

  lemma ZerosHaveMass()
    ensures Mass(map[{} := ONE]) == 1.0
  {
    hide Norm2, Product;
    var m: Stored := map[{} := ONE];
    assert m.Keys == {{}};
    SumTake(m.Keys, NormAt(m), {});
    assert m.Keys - {{}} == {};
    NormOfOne();
  }

  /** One more gate for the stored vector. */
  lemma OneMoreGate(prec: nat, c: Circuit, g: Gate)
    requires IsDrifting(prec, c) && !g.Turned?
    ensures IsDrifting(prec, c + [g]) && Clean(c + [g]) == Clean(c) + [g] && (IsLevel(c) ==> IsLevel(c + [g]))
  {
    hide IsDrifting, Clean;
    assert IsLevel([g]);
    DriftingPlain(prec, c, [g]);
    CleanOne(c, g);
  }

  /** The queue has been emptied into the stored vector. */
  lemma QueueEmptied(h: Circle, m: Stored, m': Stored, start: Vec, c: Circuit, ops: OpSeq, code: seq<C.Compiled>, dropped: int,
                     d: Bits -> int, prec: nat)
    requires IsCircle(h) && AllValid(ops) && Denotes(h, m, start, c) && IsDrifting(prec, c)
    requires Q.Simulates(code, {}, dropped, ops, {}, Q.Drift(ops, prec)) && SS.Relabelled(m, m', code, Turn(h))
    requires SU.OpsApplied(m, m', ops, Turn(h), dropped, d) && forall x :: Circ(d(x)) <= Q.Drift(ops, prec)
    requires AllOnGrid(ops, prec) ==> d == SU.NO_DRIFT
    ensures var e := Emptied(prec, c, ops, d);
      && Denotes(h, m', start, e) && IsDrifting(prec, e) && Clean(e) == Clean(c) + Queued(ops) && Mass(m') == Mass(m)
      && (AllOnGrid(ops, prec) && IsLevel(c) ==> IsLevel(e))
  {
    assert Emptied(prec, c, ops, d) == c + Queued(ops) + if AllOnGrid(ops, prec) then [] else [Turned(d)];
    forall x, y | C.BitsAll(code, x) == C.BitsAll(code, y) ensures x == y {
      hide *;
      Q.CodeInjective(code, {}, dropped, ops, {}, Q.Drift(ops, prec), x, y);
    }
    hide *;
    RelabelKeepsMass(h, m, m', code);
    EmptiedIs(prec, c, ops, d);
    DenotesOps(h, m, m', start, c, ops, dropped, d);
    if AllOnGrid(ops, prec) {
      NoDriftVanishes(h, c + Queued(ops));
      DenotesSame(h, m', start, c + Queued(ops) + [Turned(SU.NO_DRIFT)], c + Queued(ops));
      assert c + Queued(ops) + [] == c + Queued(ops);
    }
  }

  /** Qubits that the vector has no room for are zero in all states. */
  lemma BeyondWords(p0: P.Part<Complex>, p1: P.Part<Complex>, split: Option<Qubit>, words: nat, q: Qubit)
    requires P.GoodParts(p0, p1, split, words) && q >= WORD * words
    ensures M.OnlySide(P.Vector(p0, p1), q, false)
  {
    P.VectorIs(p0, p1, split, words);
    var m := P.Meaning(p0 + p1);
    forall b | b in m ensures q !in b {
      P.MeaningHas(p0 + p1, b);
      var e :| e in p0 + p1 && e.bits == b;
      assert Fits(e.bits, words);
    }
  }
}
