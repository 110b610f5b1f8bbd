/**
 The lazy simulator (`src/simulator.rs`): single-qubit gates wait per qubit, other operations wait in the gate queue,
 and each new operation is rewritten past what waits. A call makes of the logical state what it asks for unless rounding
 mistakes an angle of a waiting gate for a quarter turn. What the stored vector has gone through is known in any case: with
 it the circuit has the turns that rounding the phases of compiled operations has added.
 */
module LazySimulator {
  import opened Wrappers
  import opened Angles
  import opened Controls
  import opened Ops
  import opened BasisOrder
  import opened Complexes
  import opened Circuits
  import opened CircuitRules
  import opened U3Matrices
  import opened U3Decompositions
  import opened PendingGates
  import opened LazyStates
  import opened DenseVectors
  import opened Masses
  import P = SparseParts
  import U = U3Gates
  import UC = U3Composition
  import Q = CompileQueue
  import S = SparseStatevector
  import SU = SfreeUpdate
  import M = Measurements
  import SM = SparseMeasure
  import SS = SparseSorting

  method MaxQubit(s: set<Qubit>) returns (r: Qubit)
    ensures forall q :: q in s ==> q <= r
  {
    r := 0;
    var todo := s;
    while todo != {}
      invariant todo <= s && forall q :: q in s && q !in todo ==> q <= r
      decreases |todo|
    {
      var q :| q in todo;
      todo := todo - {q};
      if q > r {
        r := q;
      }
    }
  }

  /** The same vector with room for more qubits. */
  method Regrown(was: S.Statevector<Complex>, words: nat) returns (s: S.Statevector<Complex>)
    requires was.Valid() && was.words <= words
    ensures s.Valid() && fresh(s) && fresh(s.data) && s.words == words && s.Contents() == was.Contents()
  {
    hide P.GoodParts, P.AllFit, P.Vector;
    RoomForMore(was.data[..was.n0], was.data[was.n0..was.n0 + was.n1], was.partitionedBy, was.words, words);
    s := new S.Statevector<Complex>(words, ONE);
    s.Import(was);
  }

  lemma RoomForMore(p0: P.Part<Complex>, p1: P.Part<Complex>, split: Option<Qubit>, words: nat, words': nat)
    requires P.GoodParts(p0, p1, split, words) && words <= words'
    ensures P.AllFit(p0, words') && P.AllFit(p1, words') && (split.Some? ==> split.value < WORD * words')
  {
  }

  class Simulator {
    /** The source's PREC. */
    const prec: nat
    const h: Circle
    const numeric: U.Numeric
    const queue: Q.Queue
    var state: S.Statevector<Complex>
    var qubits: States

    /** The vector the simulator was started with, and what the stored vector has gone through since. */
    ghost var start: Vec
    ghost var applied: Circuit

    /** Whether all angles so far have been on the grid. */
    ghost var fine: bool

    /** The pairs of gates that waiting gates were composed from. */
    ghost var composed: seq<(U.U3, U.U3)>

    ghost function Repr(): set<object>
      reads this, state
    {
      {this, state, state.data, queue}
    }

    ghost predicate Valid()
      reads this, state, state.data, queue
    {
      Represents() && queue.IsValid() && (fine ==> Sharp(prec, qubits, queue.ops) && IsLevel(applied))
    }

    /** The stored vector is what has been applied to it makes of the start, and rounding has added to that within its bounds. */
    ghost predicate Represents()
      reads `state, `start, `applied, state, state.data
    {
      state.Valid() && IsCircle(h) && Denotes(h, state.Contents(), start, applied) && IsDrifting(prec, applied)
    }

    /** The logical state, as a circuit on `start`. */
    ghost function Logical(): Circuit
      reads `applied, `qubits, queue
    {
      Log(h, Clean(applied), queue.ops, Gates(qubits))
    }

    /** The weight of the stored vector. */
    ghost function Total(): real
      reads `state, state, state.data
    {
      if state.n0 + state.n1 <= state.data.Length then Mass(state.Contents()) else 0.0
    }

    constructor (prec: nat, h: Circle, numeric: U.Numeric, initMaxQubit: Qubit)
      requires IsCircle(h)
      ensures Valid() && fresh(Repr()) && qubits == map[] && queue.ops == [] && start == ZEROS && applied == []
      ensures fine == (prec >= 2) && composed == [] && Total() == 1.0
      ensures this.prec == prec && this.h == h && this.numeric == numeric
    {
      hide P.GoodParts, P.Vector, Denotes, IsCircle, Mass;
      var s := new S.Statevector<Complex>(WordsFor(initMaxQubit), ONE);
      StartsAsZeros(h);
      this.prec, this.h, this.numeric := prec, h, numeric;
      queue := new Q.Queue();
      state, qubits, start, applied := s, map[], ZEROS, [];
      fine, composed := prec >= 2, [];
      new;
      ZerosHaveMass();
    }

    // What the invariant says, for members that do not look into it

    lemma Circular()
      requires Represents()
      ensures IsCircle(h)
    {
      hide IsCircle;
    }

    lemma Sound()
      requires Valid()
      ensures IsCircle(h) && queue.IsValid() && (fine ==> Sharp(prec, qubits, queue.ops) && IsLevel(applied))
    {
      hide IsCircle, Sharp, IsLevel;
    }

    lemma TotalIs()
      requires Valid()
      ensures state.n0 + state.n1 <= state.data.Length && Total() == Mass(state.Contents())
    {
      hide IsCircle, Sharp, Denotes, IsDrifting, IsLevel, P.GoodParts, Mass;
    }

    lemma Stands()
      requires Valid()
      ensures state.n0 + state.n1 <= state.data.Length && Denotes(h, state.Contents(), start, applied) && IsDrifting(prec, applied)
    {
      hide IsCircle, Sharp, Denotes, IsDrifting, IsLevel, P.GoodParts;
    }

    lemma LogicalIs()
      ensures Logical() == Log(h, Clean(applied), queue.ops, Gates(qubits))
    {
      hide Log, Clean;
    }

    // The stored vector

    /** Applies a pending gate to the stored vector. */
    method ApplyGate(q: Qubit, gate: U.U3)
      requires Valid() && q < WORD * state.words
      modifies this`applied, state`data, state`n0, state`n1, state`partitionedBy
      ensures Valid() && fresh(state.data)
      ensures applied == old(applied) + [Pend(h, q, gate)]
      ensures Total() == old(Total())
    {
      hide P.GoodParts, P.Vector, Denotes, IsCircle, Sharp, P.IsGated, Matrix, S.Statevector.Contents, GateOf, Mass, KeepsNorm,
        IsDrifting, IsLevel;
      ghost var was, m := state.Contents(), Matrix(h, gate);
      var count: nat, chunks: nat := *, *;
      state.PerformU4(q, GateOf(Matrix(h, gate)), count, chunks);
      DenotesGate(h, was, state.Contents(), start, applied, q, m);
      GatesKeepNorm(h, gate);
      GateKeepsMass(was, state.Contents(), m, q);
      OneMoreGate(prec, applied, Single(q, m));
      applied := applied + [Pend(h, q, gate)];
    }

    /** Empties the queue into the stored vector. */
    method ApplyQueue()
      requires Valid() && forall q :: q in queue.writeSet ==> q < WORD * state.words
      modifies this`applied, queue, state`data, state`n0, state`n1, state`partitionedBy, state.data
      ensures Valid() && (state.data == old(state.data) || fresh(state.data))
      ensures queue.ops == [] && Logical() == old(Logical()) && exists d :: applied == Emptied(prec, old(applied), old(queue.ops), d)
      ensures Total() == old(Total())
    {
      hide P.GoodParts, P.Vector, Denotes, IsCircle, Sharp, SU.OpsApplied, SU.TurnsAdd, Q.Simulates, AllValid, Turn, SS.Relabelled,
        S.Statevector.Contents, Log, Q.Drift, Mass, IsDrifting, IsLevel, Circ, Clean, Emptied, AllOnGrid, Queued;
      ghost var was, ops := state.Contents(), queue.ops;
      var count: nat, chunks: nat, maxSeq: nat := *, *, *;
      var size0: nat, size1: nat :| size0 > 0 && size1 > 0;
      ghost var code, dropped, d := SU.PerformSfree(state, queue, prec, Turn(h), size0, size1, count, chunks, maxSeq);
      TurnsAddUp(h);
      QueueEmptied(h, was, state.Contents(), start, applied, ops, code, dropped, d, prec);
      if fine {
        SharpIs(prec, qubits, ops);
        SharpWithout(prec, qubits, ops, 0);
      }
      QueueToVector(h, Clean(applied), ops, Gates(qubits));
      applied := Emptied(prec, applied, ops, d);
    }

    /** Grows the stored vector until it has room for the qubit. */
    method EnsureQubit(q: Qubit)
      requires Valid()
      modifies this`state
      ensures Valid() && (state == old(state) || (fresh(state) && fresh(state.data))) && q < WORD * state.words
      ensures old(state.words) <= state.words
      ensures Total() == old(Total())
    {
      hide P.GoodParts, P.Vector, Denotes, IsCircle, Sharp, S.Statevector.Contents, Mass, IsDrifting, IsLevel;
      if q >= WORD * state.words {
        state := Regrown(state, WordsFor(q));
      }
    }

    // Applying what waits

    /** Applies the pending gate of a qubit that the queue does not block. */
    method ApplyPending(q: Qubit, ghost exact: bool)
      requires Valid() && q in qubits && q < WORD * state.words && !queue.Blocks(q, qubits[q].pending, prec)
      requires exact ==> U.IsPlain(qubits[q].pending, prec)
      modifies this`applied, this`qubits, state`data, state`n0, state`n1, state`partitionedBy
      ensures Valid() && fresh(state.data)
      ensures qubits == old(qubits) - {q} && SameAt(h, exact, old(Logical()), Logical())
      ensures Total() == old(Total())
    {
      hide Simulator.Represents, Simulator.Total, Same, Log, Sharp, U.IsPlain, IsCircle, Q.IsBlocked, AllValid, Clean, IsLevel;
      ghost var was := applied;
      var gate := qubits[q].pending;
      ApplyGate(q, gate);
      Circular();
      CleanOne(was, Pend(h, q, gate));
      if exact {
        ToVector(h, Clean(was), queue.ops, Gates(qubits), q, prec);
      }
      if fine {
        SharpWithout(prec, qubits, queue.ops, q);
      }
      assert Gates(qubits) - {q} == Gates(qubits - {q});
      qubits := qubits - {q};
    }

    /** Applies the gate early if sampling the stored vector promises that this makes it shorter; the choice is left
        open. Gates that only relabel or turn are never applied early. */
    method MaybeEagerFlush(q: Qubit, ghost exact: bool) returns (done: bool)
      requires Valid() && q in qubits && !queue.Blocks(q, qubits[q].pending, prec)
      requires exact ==> U.IsPlain(qubits[q].pending, prec)
      modifies this`applied, this`qubits, state`data, state`n0, state`n1, state`partitionedBy
      ensures Valid() && (state.data == old(state.data) || fresh(state.data)) && SameAt(h, exact, old(Logical()), Logical())
      ensures if done then !U.IsSfree(old(qubits)[q].pending, prec) && qubits == old(qubits) - {q} else qubits == old(qubits)
      ensures Total() == old(Total())
    {
      hide Simulator.Valid, Simulator.Logical, Simulator.Total, SameAt;
      SameAtRefl(h, exact, Logical());
      if U.IsSfree(qubits[q].pending, prec) || q >= WORD * state.words {
        return false;
      }
      var promising: bool := *;
      if !promising {
        return false;
      }
      ApplyPending(q, exact);
      return true;
    }

    /** Changes the flags of a pending gate. */
    method SetFlags(q: Qubit, st: QubitState)
      requires Valid() && q in qubits && st.pending == qubits[q].pending
      modifies this`qubits
      ensures Valid() && qubits == old(qubits)[q := st] && Logical() == old(Logical())
    {
      hide Simulator.Represents, Simulator.Total, Clean, IsLevel, Same, Log, Sharp, U.IsFine;
      if fine {
        SharpAt(prec, qubits, queue.ops, q);
        SharpWith(prec, qubits, queue.ops, q, st);
      }
      assert Gates(qubits[q := st]) == Gates(qubits);
      qubits := qubits[q := st];
    }

    /** Offers one gate for early application, unless it is marked or blocked. */
    method OfferUnblocked(q: Qubit, ghost exact: bool)
      requires Valid() && q in qubits
      requires exact && !qubits[q].isReordered ==> U.IsPlain(qubits[q].pending, prec)
      modifies this`applied, this`qubits, state`data, state`n0, state`n1, state`partitionedBy
      ensures Valid() && (state.data == old(state.data) || fresh(state.data))
      ensures SameAt(h, exact, old(Logical()), Logical()) && TrimmedAt(prec, old(qubits), qubits, q)
      ensures Total() == old(Total())
    {
      hide Simulator.Valid, Simulator.Logical, Simulator.Total, SameAt;
      SameAtRefl(h, exact, Logical());
      var st := qubits[q];
      if st.mustFlush || st.isReordered {
      } else if queue.Blocks(q, st.pending, prec) {
        SetFlags(q, st.(maybeDestructive := true));
      } else if st.maybeDestructive {
        var done := MaybeEagerFlush(q, exact);
        if !done {
          SetFlags(q, st.(maybeDestructive := false));
        }
      }
    }

    method RetainUnblocked(ghost exact: bool)
      requires Valid()
      requires exact ==> Tested(prec, qubits)
      modifies this`applied, this`qubits, state`data, state`n0, state`n1, state`partitionedBy
      ensures Valid() && (state.data == old(state.data) || fresh(state.data))
      ensures SameAt(h, exact, old(Logical()), Logical()) && Trimmed(prec, old(qubits), qubits)
      ensures Total() == old(Total())
    {
      hide Simulator.Valid, Simulator.Logical, Simulator.Total, SameAt;
      SameAtRefl(h, exact, Logical());
      TrimmedNone(prec, qubits);
      ghost var was := Logical();
      var todo := qubits.Keys;
      while todo != {}
        invariant Valid() && (state.data == old(state.data) || fresh(state.data))
        invariant (exact ==> Tested(prec, qubits)) && Total() == old(Total())
        invariant todo <= qubits.Keys && SameAt(h, exact, was, Logical()) && Trimmed(prec, old(qubits), qubits)
        decreases |todo|
      {
        var q :| q in todo;
        todo := todo - {q};
        ghost var before, m := Logical(), qubits;
        if exact {
          TestedAt(prec, qubits, q);
        }
        OfferUnblocked(q, exact);
        SameAtTrans(h, exact, was, before, Logical());
        TrimmedStep(prec, old(qubits), m, qubits, q);
        TrimmedTested(prec, old(qubits), qubits);
      }
    }

    /** Offers one gate for early application when nothing is queued. */
    method OfferUnchecked(q: Qubit, ghost exact: bool)
      requires Valid() && q in qubits && queue.ops == []
      requires exact && !qubits[q].isReordered ==> U.IsPlain(qubits[q].pending, prec)
      modifies this`applied, this`qubits, state`data, state`n0, state`n1, state`partitionedBy
      ensures Valid() && (state.data == old(state.data) || fresh(state.data))
      ensures SameAt(h, exact, old(Logical()), Logical()) && TrimmedAt(prec, old(qubits), qubits, q)
      ensures Total() == old(Total())
    {
      hide Simulator.Valid, Simulator.Logical, Simulator.Total, SameAt;
      SameAtRefl(h, exact, Logical());
      var st := qubits[q];
      if !st.isReordered && st.maybeDestructive {
        NothingBlocks();
        var done := MaybeEagerFlush(q, exact);
        if !done {
          SetFlags(q, st.(maybeDestructive := false));
        }
      }
    }

    method RetainUnchecked(ghost exact: bool)
      requires Valid() && queue.ops == []
      requires exact ==> Tested(prec, qubits)
      modifies this`applied, this`qubits, state`data, state`n0, state`n1, state`partitionedBy
      ensures Valid() && (state.data == old(state.data) || fresh(state.data))
      ensures SameAt(h, exact, old(Logical()), Logical()) && Trimmed(prec, old(qubits), qubits)
      ensures Total() == old(Total())
    {
      hide Simulator.Valid, Simulator.Logical, Simulator.Total, SameAt;
      SameAtRefl(h, exact, Logical());
      TrimmedNone(prec, qubits);
      ghost var was := Logical();
      var todo := qubits.Keys;
      while todo != {}
        invariant Valid() && (state.data == old(state.data) || fresh(state.data))
        invariant (exact ==> Tested(prec, qubits)) && Total() == old(Total())
        invariant todo <= qubits.Keys && SameAt(h, exact, was, Logical()) && Trimmed(prec, old(qubits), qubits)
        decreases |todo|
      {
        var q :| q in todo;
        todo := todo - {q};
        ghost var before, m := Logical(), qubits;
        if exact {
          TestedAt(prec, qubits, q);
        }
        OfferUnchecked(q, exact);
        SameAtTrans(h, exact, was, before, Logical());
        TrimmedStep(prec, old(qubits), m, qubits, q);
        TrimmedTested(prec, old(qubits), qubits);
      }
    }

    /** Applies one gate that must go, or unmarks it. */
    method FlushOne(q: Qubit, ghost exact: bool)
      requires Valid() && q in qubits
      requires qubits[q].mustFlush ==> q < WORD * state.words && !queue.Blocks(q, qubits[q].pending, prec) && !qubits[q].isReordered
      requires exact && qubits[q].mustFlush ==> U.IsPlain(qubits[q].pending, prec)
      modifies this`applied, this`qubits, state`data, state`n0, state`n1, state`partitionedBy
      ensures Valid() && (state.data == old(state.data) || fresh(state.data))
      ensures SameAt(h, exact, old(Logical()), Logical()) && UnmarkedAt(old(qubits), qubits, q)
      ensures Total() == old(Total())
    {
      hide Simulator.Valid, Simulator.Logical, Simulator.Total, SameAt;
      SameAtRefl(h, exact, Logical());
      var st := qubits[q];
      if !st.mustFlush {
        SetFlags(q, st.(isReordered := false));
      } else {
        assert !st.isReordered;
        ApplyPending(q, exact);
      }
    }

    method FlushMarked(ghost exact: bool)
      requires Valid() && Flushable()
      requires exact ==> Tested(prec, qubits)
      modifies this`applied, this`qubits, state`data, state`n0, state`n1, state`partitionedBy
      ensures Valid() && (state.data == old(state.data) || fresh(state.data))
      ensures SameAt(h, exact, old(Logical()), Logical()) && PartUnmarked(old(qubits), qubits, {})
      ensures Total() == old(Total())
    {
      hide Simulator.Valid, Simulator.Logical, Simulator.Total, SameAt;
      SameAtRefl(h, exact, Logical());
      PartUnmarkedStart(qubits);
      ghost var was := Logical();
      var todo := qubits.Keys;
      while todo != {}
        invariant Valid() && (state.data == old(state.data) || fresh(state.data))
        invariant Total() == old(Total()) && SameAt(h, exact, was, Logical()) && PartUnmarked(old(qubits), qubits, todo)
        decreases |todo|
      {
        var q :| q in todo;
        ghost var before, m := Logical(), qubits;
        PartUnmarkedAt(old(qubits), m, todo, q);
        if exact {
          TestedAt(prec, old(qubits), q);
        }
        FlushOne(q, exact);
        SameAtTrans(h, exact, was, before, Logical());
        UnmarkedStep(old(qubits), m, qubits, q, todo);
        todo := todo - {q};
      }
    }

    /** Every gate that must go can be applied. */
    ghost predicate Flushable()
      reads this, queue, state
    {
      forall q :: q in qubits && qubits[q].mustFlush ==>
        q < WORD * state.words && !queue.Blocks(q, qubits[q].pending, prec) && !qubits[q].isReordered
    }

    /** Whether a gate that must go has to wait for the queue. */
    method MustEmpty() returns (b: bool)
      requires Valid()
      ensures !b <==> NoneBlocked(qubits, queue.readSet, queue.writeSet, prec)
    {
      hide Simulator.Valid, Simulator.Logical, Simulator.Total, SameAt;
      var todo := qubits.Keys;
      while todo != {}
        invariant todo <= qubits.Keys
        invariant forall q :: q in qubits && q !in todo && qubits[q].mustFlush ==>
          !Q.IsBlocked(queue.readSet, queue.writeSet, q, qubits[q].pending, prec)
        decreases |todo|
      {
        var q :| q in todo;
        todo := todo - {q};
        if qubits[q].mustFlush && queue.Blocks(q, qubits[q].pending, prec) {
          return true;
        }
      }
      return false;
    }

    /** The largest qubit that the flush needs. */
    method MaxFlushed(also: bool) returns (r: Qubit)
      ensures also ==> forall q :: q in queue.writeSet ==> q <= r
      ensures forall q :: q in qubits && qubits[q].mustFlush ==> q <= r
    {
      r := 0;
      if also {
        r := MaxQubit(queue.readSet + queue.writeSet);
      }
      var marked := set q | q in qubits && qubits[q].mustFlush;
      assert forall q :: q in qubits && qubits[q].mustFlush ==> q in marked;
      var other := MaxQubit(marked);
      if other > r {
        r := other;
      }
    }

    /** The first half of a flush, up to the point where the vector has room for everything that goes. */
    method MakeRoom(also: bool, ghost exact: bool)
      requires Valid()
      requires exact ==> Tested(prec, qubits)
      modifies this`applied, this`qubits, this`state, state`data, state`n0, state`n1, state`partitionedBy
      ensures Valid() && fresh(Repr() - old(Repr()))
      ensures SameAt(h, exact, old(Logical()), Logical()) && Trimmed(prec, old(qubits), qubits)
      ensures also ==> forall q :: q in queue.writeSet ==> q < WORD * state.words
      ensures forall q :: q in qubits && qubits[q].mustFlush ==> q < WORD * state.words
      ensures Total() == old(Total())
    {
      hide Simulator.Valid, Simulator.Logical, Simulator.Total, SameAt;
      RetainUnblocked(exact);
      var maxQ := MaxFlushed(also);
      EnsureQubit(maxQ);
    }

    /** The second half, where the queue goes first. */
    method FlushQueue(ghost exact: bool)
      requires Valid() && forall q :: q in queue.writeSet ==> q < WORD * state.words
      requires forall q :: q in qubits && qubits[q].mustFlush ==> q < WORD * state.words && !qubits[q].isReordered
      requires exact ==> Tested(prec, qubits)
      modifies this`applied, this`qubits, queue, state`data, state`n0, state`n1, state`partitionedBy, state.data
      ensures Valid() && queue.ops == [] && (state.data == old(state.data) || fresh(state.data))
      ensures SameAt(h, exact, old(Logical()), Logical()) && Trimmed(prec, old(qubits), qubits) && Flushable()
      ensures Total() == old(Total())
    {
      hide Simulator.Valid, Simulator.Logical, Simulator.Total, SameAt;
      ApplyQueue();
      RetainUnchecked(exact);
      NothingBlocks();
    }

    lemma NothingBlocks()
      requires Valid() && queue.ops == []
      ensures forall q: Qubit, gate: U.U3 :: !Q.IsBlocked(queue.readSet, queue.writeSet, q, gate, prec)
    {
      hide Simulator.Represents, U.ToRzRx;
    }

    /** Applies the gates that must go, and before them the queue if it is asked for or blocks one of them. */
    method Flush(alsoSfree: bool, ghost exact: bool)
      requires Valid() && Consistent(qubits)
      requires exact ==> Tested(prec, qubits)
      modifies this`applied, this`qubits, this`state, queue, state, state.data
      ensures Valid() && fresh(Repr() - old(Repr()))
      ensures SameAt(h, exact, old(Logical()), Logical()) && Flushed(prec, old(qubits), qubits) && Quiet(qubits)
      ensures queue.ops == old(queue.ops) || queue.ops == []
      ensures alsoSfree ==> queue.ops == []
      ensures !alsoSfree && NoneBlocked(old(qubits), old(queue.readSet), old(queue.writeSet), prec) ==> queue.ops == old(queue.ops)
      ensures Total() == old(Total())
    {
      hide Simulator.Valid, Simulator.Logical, Simulator.Total, SameAt, Tested, Flushed, Trimmed, PartUnmarked, Quiet, Q.IsBlocked;
      ghost var was, m := Logical(), qubits;
      var also := alsoSfree;
      if queue.ops == [] {
        also := false;
      } else if !also {
        also := MustEmpty();
      }
      QueueEmptyOrNot(also);
      MakeRoom(also, exact);
      ghost var before, m1 := Logical(), qubits;
      TrimmedMarks(prec, m, m1, queue.readSet, queue.writeSet);
      TrimmedTested(prec, m, m1);
      if also {
        FlushQueue(exact);
        TrimmedTwice(prec, m, m1, qubits);
      } else {
        SameAtRefl(h, exact, Logical());
      }
      SameAtTrans(h, exact, was, before, Logical());
      ghost var between, m2 := Logical(), qubits;
      TrimmedTested(prec, m, m2);
      FlushMarked(exact);
      SameAtTrans(h, exact, was, between, Logical());
      TrimmedUnmarked(prec, m, m2, qubits);
    }

    lemma QueueEmptyOrNot(also: bool)
      requires Valid() && (queue.ops == [] || also || NoneBlocked(qubits, queue.readSet, queue.writeSet, prec))
      ensures also || NoneBlocked(qubits, queue.readSet, queue.writeSet, prec)
    {
      hide Simulator.Valid, Q.IsBlocked;
      if queue.ops == [] {
        NothingBlocks();
      }
    }

    // Preflushing

    /** Queues an x and an rz on the qubit, as far as they do something, in place of its pending gate. */
    method QueueSfree(q: Qubit, isX: bool, rz: Angle, ghost exact: bool)
      requires Valid() && q in qubits && U.ToCxRz(qubits[q].pending, prec) == Some((isX, rz))
      requires exact ==> U.IsPlain(qubits[q].pending, prec)
      modifies this`qubits, queue
      ensures Valid() && qubits == old(qubits) - {q} && SameAt(h, exact, old(Logical()), Logical())
    {
      hide Simulator.Represents, Simulator.Total, Clean, IsLevel, Same, Log, Sharp, IsCircle, U.ToCxRz, Round, Q.Queue.IsValid;
      ghost var ops := queue.ops;
      if isX {
        queue.X(q);
      }
      if Round(rz, prec) != 0 {
        queue.CtlPhase([ControlItem(q, true)], rz);
      }
      assert queue.ops == ops + SfreeOps(q, isX, rz, prec);
      Circular();
      SfreeQueued(h, Clean(applied), ops, qubits, q, prec, isX, rz);
      qubits := qubits - {q};
    }

    /** Queues the rz that the pending gate begins with; the rest stays, to be commuted past. */
    method SplitOffRz(q: Qubit, rz: Angle, g: U.U3, ghost exact: bool)
      requires Valid() && q in qubits && (fine ==> OnGrid(rz, prec) && U.IsFine(g, prec))
      requires exact ==> Alike(Matrix(h, qubits[q].pending), Times(Matrix(h, g), RzMat(h, rz)))
      modifies this`qubits, queue
      ensures Valid() && qubits == old(qubits)[q := old(qubits)[q].(pending := g, isReordered := true)]
      ensures SameAt(h, exact, old(Logical()), Logical())
    {
      hide Simulator.Represents, Simulator.Total, Clean, IsLevel, Same, Log, Sharp, U.IsFine, IsCircle, Matrix, Alike, Times, RzMat;
      ghost var ops := queue.ops;
      var st := qubits[q].(pending := g, isReordered := true);
      queue.CtlPhase([ControlItem(q, true)], rz);
      Circular();
      RzQueued(h, Clean(applied), ops, qubits, q, prec, rz, st);
      qubits := qubits[q := st];
    }

    /** The parts of a gate on the grid are on the grid as well. */
    lemma FineParts(q: Qubit)
      requires Valid() && fine && q in qubits
      ensures var g := qubits[q].pending;
        && (U.ToRzRx(g, prec).Some? ==> OnGrid(U.ToRzRx(g, prec).value.0, prec) && U.IsFine(U.Rx(U.ToRzRx(g, prec).value.1), prec))
        && (U.ToRzHRz(g, prec).Some? ==>
             OnGrid(U.ToRzHRz(g, prec).value.0, prec) && U.IsFine(U.U3(PI_1_2, U.ToRzHRz(g, prec).value.1, PI), prec))
    {
      hide *;
      Sound();
      SharpAt(prec, qubits, queue.ops, q);
      PartsOnGrid(qubits[q].pending, prec);
    }

    /** Matches a gate that is an h between two rz; nothing changes where it does not match. */
    method PreflushH(q: Qubit, kind: Kind, ghost exact: bool) returns (r: Match)
      requires Valid() && q in qubits && !qubits[q].mustFlush && !qubits[q].isReordered
      requires exact ==> U.IsPlain(qubits[q].pending, prec)
      modifies this`qubits, queue
      ensures Valid() && SameAt(h, exact, old(Logical()), Logical())
      ensures r == AsId || (Accepts(kind, r) && Matched(h, prec, exact, qubits, q, r) && q in qubits && qubits[q].isReordered)
      ensures q in qubits && qubits == old(qubits)[q := qubits[q]] && !qubits[q].mustFlush
      ensures r == AsId ==> qubits == old(qubits) && MatchesNoH(kind, qubits[q].pending, prec)
      ensures UC.IsClifford(old(qubits)[q].pending) ==> UC.IsClifford(qubits[q].pending)
    {
      hide Simulator.Valid, Simulator.Logical, Simulator.Total, SameAt, UC.IsClifford, U.IsFine, U.ToRzHRz, U.Compose, Round, Fulfils,
        U.IsPlain, Sharp, IsLevel, OnGrid, Matrix, Alike, Times, RzMat, IsCircle, U.Rx;
      SameAtRefl(h, exact, Logical());
      var st := qubits[q];
      var gate := st.pending;
      var rzHRz := U.ToRzHRz(gate, prec);
      if rzHRz.None? {
        return AsId;
      }
      Sound();
      if fine {
        FineParts(q);
      }
      if UC.IsClifford(gate) {
        PartsClifford(gate, prec);
      }
      var (rz1, rz2) := rzHRz.value;
      HMatches(h, prec, numeric, gate);
      HThenRz(numeric, rz2);
      if Accepts(kind, AsHRz) {
        if Round(rz1, prec) != 0 {
          SplitOffRz(q, rz1, U.Compose(numeric, U.H, U.Rz(rz2)), exact);
        } else {
          SetFlags(q, st.(isReordered := true));
        }
        return AsHRz;
      }
      var rz2r := Round(rz2, prec);
      if rz2r == 0 && Accepts(kind, AsHRx) {
        SetFlags(q, st.(isReordered := true));
        return AsHRx;
      }
      if rz2r == PI && Accepts(kind, AsXHRx) {
        SetFlags(q, st.(isReordered := true));
        return AsXHRx;
      }
      return AsId;
    }

    /** Matches a gate that superposes. */
    method PreflushRotation(q: Qubit, kind: Kind, ghost exact: bool) returns (r: Match)
      requires Valid() && q in qubits && !qubits[q].mustFlush && !qubits[q].isReordered
      requires exact ==> U.IsPlain(qubits[q].pending, prec)
      modifies this`qubits, queue
      ensures Valid() && SameAt(h, exact, old(Logical()), Logical())
      ensures (r == AsId || Accepts(kind, r)) && Matched(h, prec, exact, qubits, q, r)
      ensures q in qubits && qubits == old(qubits)[q := qubits[q]] && (!qubits[q].mustFlush || !qubits[q].isReordered)
      ensures !qubits[q].isReordered ==> qubits[q].pending == old(qubits)[q].pending
      ensures U.ToCxRz(old(qubits)[q].pending, prec).None? && qubits[q].mustFlush ==> !Stays(kind, old(qubits)[q].pending, prec)
      ensures UC.IsClifford(old(qubits)[q].pending) ==> UC.IsClifford(qubits[q].pending)
    {
      hide Simulator.Valid, Simulator.Logical, Simulator.Total, SameAt, UC.IsClifford, U.IsFine, U.ToRzRx, U.ToRzHRz, U.Compose, Round, MatchesNoH,
        Fulfils, Stays, U.IsPlain, Sharp, IsLevel, OnGrid, Matrix, Alike, Times, RzMat, IsCircle, U.Rx;
      SameAtRefl(h, exact, Logical());
      var st := qubits[q];
      var gate := st.pending;
      Sound();
      if fine {
        FineParts(q);
      }
      if UC.IsClifford(gate) {
        PartsClifford(gate, prec);
      }
      var rzRx := U.ToRzRx(gate, prec);
      if rzRx.Some? && Accepts(kind, AsRx) {
        var (rz, rx) := rzRx.value;
        RxMatches(h, prec, gate);
        if Round(rz, prec) != 0 {
          SplitOffRz(q, rz, U.Rx(rx), exact);
        }
        return AsRx;
      }
      r := PreflushH(q, kind, exact);
      if r != AsId {
        return r;
      }
      if U.ToCxRz(gate, prec).None? {
        NotStaying(kind, gate, prec);
      }
      SetFlags(q, st.(mustFlush := true));
      return AsId;
    }

    /** Prepares the pending gate of a qubit for an operation of this kind: what can be, is queued in its place; what
        matches, may stay; anything else must be flushed. */
    method Preflush(q: Qubit, kind: Kind, ghost exact: bool) returns (r: Match)
      requires Valid() && (q in qubits ==> !qubits[q].mustFlush && !qubits[q].isReordered)
      requires exact ==> Tested(prec, qubits)
      modifies this`applied, this`qubits, queue, state`data, state`n0, state`n1, state`partitionedBy
      ensures Valid() && (state.data == old(state.data) || fresh(state.data))
      ensures SameAt(h, exact, old(Logical()), Logical())
      ensures (r == AsId || Accepts(kind, r)) && Matched(h, prec, exact, qubits, q, r)
      ensures Touched(old(qubits), qubits, q)
      ensures q in qubits && qubits[q].mustFlush ==> q in old(qubits) && !Stays(kind, old(qubits)[q].pending, prec)
      ensures Total() == old(Total())
      ensures exact ==> Tested(prec, qubits)
    {
      hide Simulator.Valid, Simulator.Logical, Simulator.Total, SameAt, U.IsFine, Matched, U.ToCxRz, Round, IsCircle;
      SameAtRefl(h, exact, Logical());
      Sound();
      if exact {
        TestedAt(prec, qubits, q);
      }
      ghost var m0 := qubits;
      SfreeMatches(h, prec, exact, qubits, q);
      if q !in qubits {
        return AsId;
      }
      var st := qubits[q];
      var gate := st.pending;
      var cxRz := U.ToCxRz(gate, prec);
      if cxRz.Some? {
        var (isX, rz) := cxRz.value;
        if isX && Accepts(kind, AsXRz) {
          return AsXRz;
        }
        if Round(rz, prec) != 0 && Accepts(kind, AsRz) {
          return AsRz;
        }
        QueueSfree(q, isX, rz, exact);
        TouchedTested(prec, m0, qubits, q);
        IdMatches(h, prec, exact, qubits, q);
        return AsId;
      }
      ghost var was := Logical();
      if st.maybeDestructive && !queue.Blocks(q, gate, prec) {
        var done := MaybeEagerFlush(q, exact);
        if done {
          TouchedTested(prec, m0, qubits, q);
          IdMatches(h, prec, exact, qubits, q);
          return AsId;
        }
        SetFlags(q, st.(maybeDestructive := false));
      }
      ghost var before := Logical();
      r := PreflushRotation(q, kind, exact);
      SameAtTrans(h, exact, was, before, Logical());
      TouchedTested(prec, m0, qubits, q);
    }

    /** Preflushes the qubits of a control. The items on the qubits of `t` come back inverted: x is pending there. */
    method PreflushCtl(ctl: Control, ghost exact: bool) returns (c: Control, ghost t: set<Qubit>)
      requires Valid() && ValidControl(ctl) && Consistent(qubits) && Unmarked(qubits, ctl, 0)
      requires exact ==> Tested(prec, qubits)
      modifies this`applied, this`qubits, queue, state`data, state`n0, state`n1, state`partitionedBy
      ensures Valid() && (state.data == old(state.data) || fresh(state.data))
      ensures SameAt(h, exact, old(Logical()), Logical()) && Consistent(qubits)
      ensures c == InvertAll(ctl, t) && (forall q :: q in t ==> Uses(ctl, q))
      ensures CtlMatched(h, prec, exact, qubits, ctl, |ctl|, t) && Kept(old(qubits), qubits, ctl, |ctl|)
      ensures Total() == old(Total())
      ensures exact ==> Tested(prec, qubits)
    {
      hide Simulator.Valid, Simulator.Logical, Simulator.Total, SameAt;
      c, t := [], {};
      ghost var was, m0 := Logical(), qubits;
      SameAtRefl(h, exact, was);
      CtlStart(h, prec, exact, m0, ctl);
      for i := 0 to |ctl|
        invariant Valid() && (state.data == old(state.data) || fresh(state.data))
        invariant (exact ==> Tested(prec, qubits)) && Total() == old(Total())
        invariant SameAt(h, exact, was, Logical()) && Consistent(qubits) && Unmarked(qubits, ctl, i)
        invariant c == InvertAll(ctl[..i], t) && (forall q :: q in t ==> Uses(ctl[..i], q))
        invariant CtlMatched(h, prec, exact, qubits, ctl, i, t) && Kept(m0, qubits, ctl, i)
      {
        ghost var before, m := Logical(), qubits;
        NextUnmarked(m, ctl, i);
        var r := Preflush(ctl[i].qubit, ForControl, exact);
        SameAtTrans(h, exact, was, before, Logical());
        c := c + [if r == AsXRz then ctl[i].Invert() else ctl[i]];
        ghost var t' := if r == AsXRz then t + {ctl[i].qubit} else t;
        InvertOneItem(ctl, i, t, r == AsXRz);
        CtlStep(h, prec, exact, m0, m, qubits, ctl, i, t, r);
        t := t';
      }
      assert ctl[..|ctl|] == ctl;
    }

    /** The same, except that the first item on a qubit with a pending h; rz is left out and its qubit returned: the
        operation can be moved onto that qubit. Only items that ask for 1 are considered. */
    method PreflushCtlH(ctl: Control, ghost exact: bool) returns (c: Control, had: Option<Qubit>, ghost t: set<Qubit>, ghost rest: Control)
      requires Valid() && ValidControl(ctl) && Consistent(qubits) && Unmarked(qubits, ctl, 0)
      requires exact ==> Tested(prec, qubits)
      modifies this`applied, this`qubits, queue, state`data, state`n0, state`n1, state`partitionedBy
      ensures Valid() && (state.data == old(state.data) || fresh(state.data))
      ensures SameAt(h, exact, old(Logical()), Logical()) && Consistent(qubits)
      ensures c == InvertAll(rest, t) && (forall q :: q in t ==> Uses(rest, q)) && ValidControl(rest)
      ensures if had.None? then rest == ctl else Split(ctl, rest, had.value)
      ensures CtlHMatched(h, prec, exact, qubits, ctl, |ctl|, t, had) && Kept(old(qubits), qubits, ctl, |ctl|)
      ensures Total() == old(Total())
      ensures exact ==> Tested(prec, qubits)
    {
      hide Simulator.Valid, Simulator.Logical, Simulator.Total, SameAt;
      c, t, had := [], {}, None;
      ghost var at: Option<nat> := None;
      ghost var was, m0 := Logical(), qubits;
      SameAtRefl(h, exact, was);
      CtlHStart(h, prec, exact, m0, ctl);
      for i := 0 to |ctl|
        invariant Valid() && (state.data == old(state.data) || fresh(state.data))
        invariant (exact ==> Tested(prec, qubits)) && Total() == old(Total())
        invariant SameAt(h, exact, was, Logical()) && Consistent(qubits) && Unmarked(qubits, ctl, i)
        invariant Gathered(ctl, i, c, t, had, at)
        invariant CtlHMatched(h, prec, exact, qubits, ctl, i, t, had) && Kept(m0, qubits, ctl, i)
      {
        ghost var before, m, was_t, was_c, was_at, was_had := Logical(), qubits, t, c, at, had;
        NextUnmarked(m, ctl, i);
        var r;
        if had.Some? || !ctl[i].value {
          r := Preflush(ctl[i].qubit, ForControl, exact);
          c := c + [if r == AsXRz then ctl[i].Invert() else ctl[i]];
          t := if r == AsXRz then t + {ctl[i].qubit} else t;
        } else {
          r := Preflush(ctl[i].qubit, ForControlOrH, exact);
          if r == AsHRz {
            had := Some(ctl[i].qubit);
            at := Some(i);
          } else {
            c := c + [if r == AsXRz then ctl[i].Invert() else ctl[i]];
            t := if r == AsXRz then t + {ctl[i].qubit} else t;
          }
        }
        SameAtTrans(h, exact, was, before, Logical());
        CtlHStep(h, prec, exact, m0, m, qubits, ctl, i, was_t, was_had, r, was_c, was_at);
      }
      rest := Rest(ctl, |ctl|, at);
      GatheredAll(ctl, c, t, had, at);
    }

    // Queueing

    /** Queues an operation that the pending gates turn `o` into. */
    method EnqueueX(c: Control, q: Qubit, ghost o: CtlOp, ghost exact: bool)
      requires Valid() && Ops.Valid(CtlOp(c, Op.X(q)))
      requires exact ==> PassesAs(h, Singles(h, Gates(qubits)), o, CtlOp(c, Op.X(q)))
      modifies queue
      ensures Valid() && SameAt(h, exact, old(Logical()) + [Controlled(o)], Logical())
    {
      hide Simulator.Represents, Simulator.Total, Clean, IsLevel, Same, Log, Sharp, PassesAs, Singles;
      ghost var ops := queue.ops;
      queue.CtlX(c, q);
      if fine {
        SharpQueued(prec, qubits, ops, [CtlOp(c, Op.X(q))]);
      }
      if exact {
        QueueOp(h, Clean(applied), ops, Gates(qubits), o, CtlOp(c, Op.X(q)));
      }
    }

    method EnqueuePhase(c: Control, a: Angle, ghost o: CtlOp, ghost exact: bool)
      requires Valid() && ValidControl(c) && (fine ==> OnGrid(a, prec))
      requires exact ==> PassesAs(h, Singles(h, Gates(qubits)), o, CtlOp(c, Gphase(a)))
      modifies queue
      ensures Valid() && SameAt(h, exact, old(Logical()) + [Controlled(o)], Logical())
    {
      hide Simulator.Represents, Simulator.Total, Clean, IsLevel, Same, Log, Sharp, PassesAs, Singles;
      ghost var ops := queue.ops;
      queue.CtlPhase(c, a);
      if fine {
        SharpQueued(prec, qubits, ops, [CtlOp(c, Gphase(a))]);
      }
      if exact {
        QueueOp(h, Clean(applied), ops, Gates(qubits), o, CtlOp(c, Gphase(a)));
      }
    }

    method EnqueueSwap(c: Control, q1: Qubit, q2: Qubit, ghost o: CtlOp, ghost exact: bool)
      requires Valid() && Ops.Valid(CtlOp(c, Swap(q1, q2)))
      requires exact ==> PassesAs(h, Singles(h, Gates(qubits)), o, CtlOp(c, Swap(q1, q2)))
      modifies queue
      ensures Valid() && SameAt(h, exact, old(Logical()) + [Controlled(o)], Logical())
    {
      hide Simulator.Represents, Simulator.Total, Clean, IsLevel, Same, Log, Sharp, PassesAs, Singles;
      ghost var ops := queue.ops;
      queue.CtlSwap(c, q1, q2);
      if fine {
        SharpQueued(prec, qubits, ops, [CtlOp(c, Swap(q1, q2))]);
      }
      if exact {
        QueueOp(h, Clean(applied), ops, Gates(qubits), o, CtlOp(c, Swap(q1, q2)));
      }
    }

    /** A controlled z, or an x onto the Hadamard that was split off. */
    method EnqueueOntoH(c: Control, had: Option<Qubit>, ghost o: CtlOp, ghost exact: bool)
      requires Valid() && ValidControl(c) && (had.Some? ==> !Uses(c, had.value))
      requires exact ==>
        PassesAs(h, Singles(h, Gates(qubits)), o, CtlOp(c, if had.Some? then Op.X(had.value) else Gphase(PI)))
      modifies queue
      ensures Valid() && SameAt(h, exact, old(Logical()) + [Controlled(o)], Logical())
    {
      hide Simulator.Valid, Simulator.Logical, Simulator.Total, SameAt;
      if had.Some? {
        EnqueueX(c, had.value, o, exact);
      } else {
        Sound();
        TurnsOnGrid(prec);
        EnqueuePhase(c, PI, o, exact);
      }
    }

    // Calls

    /** Applies a single-qubit gate: it only waits. Whatever its angles, the logical state is the old one and then the gate,
        unless it is composed with a waiting one by the floating-point path of `U3::compose`, which then has to be exact. */
    method U3(q: Qubit, gate: U.U3)
      requires Valid() && Quiet(qubits)
      modifies this`qubits, this`fine, this`composed
      ensures Valid() && Quiet(qubits)
      ensures (q in old(qubits) ==> ComposesExactly(h, numeric, old(qubits)[q].pending, gate)) ==>
        Same(h, old(Logical()) + [Pend(h, q, gate)], Logical())
      ensures q !in old(qubits) ==> qubits == old(qubits)[q := QubitState(gate, true, false, false)]
      ensures composed == if q in old(qubits) then old(composed) + [(old(qubits)[q].pending, gate)] else old(composed)
      ensures fine == (old(fine) && U.IsFine(gate, prec) && NewWell(h, numeric, prec, old(composed), composed))
      ensures AllClifford(old(qubits)) && UC.IsClifford(gate) ==> AllClifford(qubits) && NewWell(h, numeric, prec, old(composed), composed)
    {
      hide Simulator.Represents, Simulator.Total, Same, Log, Clean, Sharp, U.IsFine, IsCircle, UC.IsClifford, AllClifford, NewWell,
        ComposesWell, ComposesExactly, Alike, Matrix, U.Compose, IsLevel;
      ghost var m := Gates(qubits);
      ghost var well := q in qubits ==> ComposesWell(h, numeric, prec, m[q], gate);
      Concede(U.IsFine(gate, prec) && well);
      Circular();
      NewWellOne(h, numeric, prec, composed, if q in qubits then m[q] else gate, gate);
      if q in qubits {
        CliffordAt(qubits, q);
        if UC.IsClifford(m[q]) && UC.IsClifford(gate) {
          CliffordsWell(h, numeric, prec, m[q], gate);
        }
        var c := U.Compose(numeric, qubits[q].pending, gate);
        composed := composed + [(m[q], gate)];
        ghost var st := qubits[q].(pending := c, maybeDestructive := true);
        if fine {
          SharpAt(prec, qubits, queue.ops, q);
          ComposedWell(h, numeric, prec, m[q], gate);
          SharpWith(prec, qubits, queue.ops, q, st);
        }
        if ComposesExactly(h, numeric, m[q], gate) {
          ComposedExactly(h, numeric, m[q], gate);
          ComposedPending(h, Clean(applied), queue.ops, m, q, gate, c);
        }
        CliffordWith(qubits, q, st);
        qubits := qubits[q := qubits[q].(pending := c, maybeDestructive := true)];
        assert Gates(qubits) == m[q := c];
      } else {
        if fine {
          SharpWith(prec, qubits, queue.ops, q, QubitState(gate, true, false, false));
        }
        CliffordWith(qubits, q, QubitState(gate, true, false, false));
        qubits := qubits[q := QubitState(gate, true, false, false)];
        assert Gates(qubits) == m[q := gate];
        NewPending(h, Clean(applied), queue.ops, m, q, gate);
      }
    }

    /** A controlled x whose target has been preflushed and has nothing pending that it would not commute with. */
    method CtlXPlain(ctl: Control, q: Qubit, ghost r: Match, ghost exact: bool)
      requires Valid() && ValidControl(ctl) && !Uses(ctl, q) && Consistent(qubits) && Unmarked(qubits, ctl, 0)
      requires (r == AsId || r == AsRx) && Matched(h, prec, exact, qubits, q, r)
      requires exact ==> Tested(prec, qubits)
      modifies this`applied, this`qubits, this`state, queue, state, state.data
      ensures Valid() && fresh(Repr() - old(Repr())) && Quiet(qubits)
      ensures SameAt(h, exact, old(Logical()) + [Controlled(CtlOp(ctl, Op.X(q)))], Logical())
      ensures AllClifford(old(qubits)) ==> AllClifford(qubits)
      ensures Total() == old(Total())
    {
      hide Simulator.Valid, Simulator.Logical, Simulator.Total, SameAt;
      ghost var o := CtlOp(ctl, Op.X(q));
      ghost var l0, m0 := Logical(), qubits;
      var c;
      ghost var t;
      c, t := PreflushCtl(ctl, exact);
      ghost var l1, m1 := Logical(), qubits;
      Flush(false, exact);
      ghost var l2 := Logical();
      KeptClifford(m0, m1, ctl, |ctl|);
      FlushedClifford(prec, m1, qubits);
      InvertAllKeeps(ctl, t);
      KeptMatched(h, prec, exact, m0, m1, ctl, q, r);
      if exact {
        Sound();
        PlainPasses(h, prec, exact, m1, qubits, ctl, q, r, t);
      }
      EnqueueX(c, q, o, exact);
      SameAtCall(h, exact, l0, l1, l2, Logical(), Controlled(o));
    }

    /** Preflushes the control of an x whose target has an h pending, and takes the target into the control. */
    method PreflushOntoH(ctl: Control, q: Qubit, inverted: bool, ghost exact: bool)
      returns (c: Control, had: Option<Qubit>, ghost t: set<Qubit>, ghost rest: Control)
      requires Valid() && ValidControl(ctl) && !Uses(ctl, q) && Consistent(qubits) && Unmarked(qubits, ctl, 0)
      requires Matched(h, prec, exact, qubits, q, if inverted then AsXHRx else AsHRx)
      requires exact ==> Tested(prec, qubits)
      modifies this`applied, this`qubits, queue, state`data, state`n0, state`n1, state`partitionedBy
      ensures Valid() && (state.data == old(state.data) || fresh(state.data))
      ensures SameAt(h, exact, old(Logical()), Logical()) && Consistent(qubits)
      ensures Matched(h, prec, exact, qubits, q, if inverted then AsXHRx else AsHRx)
      ensures CtlHMatched(h, prec, exact, qubits, ctl, |ctl|, t, had) && forall p :: p in t ==> Uses(rest, p)
      ensures if had.None? then rest == ctl else Split(ctl, rest, had.value)
      ensures ValidControl(c) && (had.Some? ==> !Uses(c, had.value))
      ensures forall b: Bits :: Holds(c, b) <==> ((q in b) == !inverted) && Holds(InvertAll(rest, t), b)
      ensures AllClifford(old(qubits)) ==> AllClifford(qubits)
      ensures Total() == old(Total())
      ensures exact ==> Tested(prec, qubits)
    {
      hide Simulator.Valid, Simulator.Logical, Simulator.Total, SameAt, Matched, CtlHMatched, Split, Consistent, Unmarked, Kept, Tested,
        AllClifford, InvertAll, Holds, Uses, ValidControl;
      ghost var m0 := qubits;
      c, had, t, rest := PreflushCtlH(ctl, exact);
      KeptClifford(m0, qubits, ctl, |ctl|);
      InvertAllKeeps(rest, t);
      SplitAvoids(ctl, rest, had, q);
      KeptMatched(h, prec, exact, m0, qubits, ctl, q, if inverted then AsXHRx else AsHRx);
      c := WithQubit(c, q, !inverted);
    }

    /** A controlled x whose target has an h pending: a controlled z, or an x onto another h. */
    method CtlXOntoH(ctl: Control, q: Qubit, inverted: bool, ghost exact: bool)
      requires Valid() && ValidControl(ctl) && !Uses(ctl, q) && Consistent(qubits) && Unmarked(qubits, ctl, 0)
      requires Matched(h, prec, exact, qubits, q, if inverted then AsXHRx else AsHRx)
      requires exact ==> Tested(prec, qubits)
      modifies this`applied, this`qubits, this`state, queue, state, state.data
      ensures Valid() && fresh(Repr() - old(Repr())) && Quiet(qubits)
      ensures SameAt(h, exact, old(Logical()) + [Controlled(CtlOp(ctl, Op.X(q)))], Logical())
      ensures AllClifford(old(qubits)) ==> AllClifford(qubits)
      ensures Total() == old(Total())
    {
      hide Simulator.Valid, Simulator.Logical, Simulator.Total, SameAt, Matched, CtlHMatched, Consistent, Unmarked, Split, IsCircle,
        ValidControl, Holds, Uses, InvertAll, PassesAs, Quiet;
      ghost var o := CtlOp(ctl, Op.X(q));
      ghost var l0 := Logical();
      var c, had;
      ghost var t, rest;
      c, had, t, rest := PreflushOntoH(ctl, q, inverted, exact);
      ghost var l1, m1 := Logical(), qubits;
      Flush(false, exact);
      ghost var l2 := Logical();
      FlushedClifford(prec, m1, qubits);
      if exact {
        Sound();
        HPasses(h, prec, exact, m1, qubits, ctl, rest, q, inverted, had, t, c);
      }
      EnqueueOntoH(c, had, o, exact);
      SameAtCall(h, exact, l0, l1, l2, Logical(), Controlled(o));
    }

    /** An x without a control only waits. */
    method PlainX(ctl: Control, q: Qubit)
      requires Valid() && Quiet(qubits) && ctl == []
      modifies this`qubits, this`fine, this`composed
      ensures Valid() && Quiet(qubits) && SameAt(h, true, old(Logical()) + [Controlled(CtlOp(ctl, Op.X(q)))], Logical())
      ensures fine == old(fine) && NewWell(h, numeric, prec, old(composed), composed)
      ensures AllClifford(old(qubits)) ==> AllClifford(qubits)
    {
      hide Simulator.Valid, Simulator.Logical, SameAt, Same, AllClifford, Quiet, NewWell, ComposesExactly, ComposesWell, Sharp,
        IsLevel, IsCircle;
      ghost var l0, g := Logical(), if q in qubits then qubits[q].pending else U.X;
      NewWellOne(h, numeric, prec, composed, g, U.X);
      XComposes(h, numeric, prec, g);
      Sound();
      if fine {
        SharpIs(prec, qubits, queue.ops);
      }
      U3(q, U.X);
      SameAtOf(h, true, l0 + [Pend(h, q, U.X)], Logical());
      XCall(h, true, q, l0, Logical(), ctl);
    }

    /** Applies a multiply controlled x. */
    method CtlX(ctl: Control, q: Qubit)
      requires Valid() && Quiet(qubits) && ValidControl(ctl) && !Uses(ctl, q)
      modifies this`applied, this`qubits, this`state, this`fine, this`composed, queue, state, state.data
      ensures Valid() && fresh(Repr() - old(Repr())) && Quiet(qubits)
      ensures SameAt(h, ctl == [] || AllPlain(prec, old(qubits)), old(Logical()) + [Controlled(CtlOp(ctl, Op.X(q)))], Logical())
      ensures fine == old(fine) && NewWell(h, numeric, prec, old(composed), composed)
      ensures AllClifford(old(qubits)) ==> AllClifford(qubits)
      ensures Total() == old(Total())
    {
      hide Simulator.Valid, Simulator.Logical, Simulator.Total, SameAt;
      NewWellOne(h, numeric, prec, composed, U.X, U.X);
      if |ctl| == 0 {
        PlainX(ctl, q);
        return;
      }
      ghost var l0, m0, exact := Logical(), qubits, AllPlain(prec, qubits);
      PlainAreTested(prec, qubits);
      var r := Preflush(q, ForX, exact);
      ghost var l1 := Logical();
      TouchedQuiet(m0, qubits, q, ctl);
      TouchedClifford(m0, qubits, q);
      if r == AsHRx || r == AsXHRx {
        CtlXOntoH(ctl, q, r == AsXHRx, exact);
      } else {
        CtlXPlain(ctl, q, r, exact);
      }
      SameAtRefl(h, exact, l1);
      SameAtCall(h, exact, l0, l1, l1, Logical(), Controlled(CtlOp(ctl, Op.X(q))));
    }

    /** Preflushes the control and both targets of a swap, which nothing may wait on. */
    method PreflushSwap(ctl: Control, q1: Qubit, q2: Qubit, ghost exact: bool) returns (c: Control, ghost t: set<Qubit>)
      requires Valid() && Quiet(qubits) && ValidControl(ctl) && !Uses(ctl, q1) && !Uses(ctl, q2) && q1 != q2
      requires exact ==> Tested(prec, qubits)
      modifies this`applied, this`qubits, queue, state`data, state`n0, state`n1, state`partitionedBy
      ensures Valid() && (state.data == old(state.data) || fresh(state.data))
      ensures SameAt(h, exact, old(Logical()), Logical()) && Consistent(qubits)
      ensures c == InvertAll(ctl, t) && (forall q :: q in t ==> Uses(ctl, q)) && CtlMatched(h, prec, exact, qubits, ctl, |ctl|, t)
      ensures Matched(h, prec, exact, qubits, q1, AsId) && Matched(h, prec, exact, qubits, q2, AsId)
      ensures AllClifford(old(qubits)) ==> AllClifford(qubits)
      ensures Total() == old(Total())
      ensures exact ==> Tested(prec, qubits)
    {
      hide Simulator.Valid, Simulator.Logical, Simulator.Total, SameAt;
      ghost var l0, m0 := Logical(), qubits;
      QuietUnmarked(m0, ctl);
      c, t := PreflushCtl(ctl, exact);
      ghost var l1, m1 := Logical(), qubits;
      KeptClifford(m0, m1, ctl, |ctl|);
      KeptQuiet(m0, m1, ctl, q1);
      KeptQuiet(m0, m1, ctl, q2);
      var r1 := Preflush(q1, ForAnything, exact);
      ghost var l2, m2 := Logical(), qubits;
      SameAtTrans(h, exact, l0, l1, l2);
      TouchedFree(h, prec, exact, m1, m2, ctl, q1, t);
      TouchedClifford(m1, m2, q1);
      TouchedElsewhere(m1, m2, q1, q2);
      var r2 := Preflush(q2, ForAnything, exact);
      SameAtTrans(h, exact, l0, l2, Logical());
      TouchedFree(h, prec, exact, m2, qubits, ctl, q2, t);
      TouchedClifford(m2, qubits, q2);
      MatchedUntouched(h, prec, exact, m2, qubits, q2, q1, AsId);
    }

    /** Applies a multiply controlled swap. */
    method CtlSwap(ctl: Control, q1: Qubit, q2: Qubit)
      requires Valid() && Quiet(qubits) && ValidControl(ctl) && !Uses(ctl, q1) && !Uses(ctl, q2) && q1 != q2
      modifies this`applied, this`qubits, this`state, queue, state, state.data
      ensures Valid() && fresh(Repr() - old(Repr())) && Quiet(qubits)
      ensures SameAt(h, AllPlain(prec, old(qubits)), old(Logical()) + [Controlled(CtlOp(ctl, Swap(q1, q2)))], Logical())
      ensures AllClifford(old(qubits)) ==> AllClifford(qubits)
      ensures Total() == old(Total())
    {
      hide Simulator.Valid, Simulator.Logical, Simulator.Total, SameAt;
      ghost var o := CtlOp(ctl, Swap(q1, q2));
      ghost var l0, exact := Logical(), AllPlain(prec, qubits);
      PlainAreTested(prec, qubits);
      var c;
      ghost var t;
      c, t := PreflushSwap(ctl, q1, q2, exact);
      ghost var l1, m1 := Logical(), qubits;
      Flush(false, exact);
      ghost var l2 := Logical();
      FlushedClifford(prec, m1, qubits);
      InvertAllKeeps(ctl, t);
      if exact {
        SwapPasses(h, prec, exact, m1, qubits, ctl, q1, q2, t);
      }
      EnqueueSwap(c, q1, q2, o, exact);
      SameAtCall(h, exact, l0, l1, l2, Logical(), Controlled(o));
    }

    /** A controlled phase that is a controlled z: an x onto a control with a pending h, if there is one. */
    method CtlPhasePi(ctl: Control, a: Angle, ghost exact: bool)
      requires Valid() && Quiet(qubits) && ValidControl(ctl) && Round(a, prec) == PI && (fine ==> OnGrid(a, prec))
      requires exact ==> Tested(prec, qubits) && Angles.IsPlain(a, prec)
      modifies this`applied, this`qubits, this`state, queue, state, state.data
      ensures Valid() && fresh(Repr() - old(Repr())) && Quiet(qubits)
      ensures SameAt(h, exact, old(Logical()) + [Controlled(CtlOp(ctl, Gphase(a)))], Logical())
      ensures AllClifford(old(qubits)) ==> AllClifford(qubits)
      ensures Total() == old(Total())
    {
      hide Simulator.Valid, Simulator.Logical, Simulator.Total, SameAt, IsCircle, Sharp, Split;
      ghost var o := CtlOp(ctl, Gphase(a));
      ghost var l0, m0 := Logical(), qubits;
      QuietUnmarked(qubits, ctl);
      var c, had;
      ghost var t, rest;
      c, had, t, rest := PreflushCtlH(ctl, exact);
      ghost var l1, m1 := Logical(), qubits;
      InvertAllKeeps(rest, t);
      Flush(false, exact);
      ghost var l2 := Logical();
      KeptClifford(m0, m1, ctl, |ctl|);
      FlushedClifford(prec, m1, qubits);
      if exact {
        Sound();
        PhasePasses(h, prec, exact, m1, qubits, ctl, rest, a, had, t);
      }
      if had.Some? {
        SplitOnce(ctl, rest, had.value);
        EnqueueX(c, had.value, o, exact);
      } else {
        EnqueuePhase(c, a, o, exact);
      }
      SameAtCall(h, exact, l0, l1, l2, Logical(), Controlled(o));
    }

    /** Any other controlled phase. */
    method CtlPhaseOther(ctl: Control, a: Angle, ghost exact: bool)
      requires Valid() && Quiet(qubits) && ValidControl(ctl) && (fine ==> OnGrid(a, prec))
      requires exact ==> Tested(prec, qubits)
      modifies this`applied, this`qubits, this`state, queue, state, state.data
      ensures Valid() && fresh(Repr() - old(Repr())) && Quiet(qubits)
      ensures SameAt(h, exact, old(Logical()) + [Controlled(CtlOp(ctl, Gphase(a)))], Logical())
      ensures AllClifford(old(qubits)) ==> AllClifford(qubits)
      ensures Total() == old(Total())
    {
      hide Simulator.Valid, Simulator.Logical, Simulator.Total, SameAt;
      ghost var o := CtlOp(ctl, Gphase(a));
      ghost var l0, m0 := Logical(), qubits;
      QuietUnmarked(qubits, ctl);
      var c;
      ghost var t;
      c, t := PreflushCtl(ctl, exact);
      ghost var l1, m1 := Logical(), qubits;
      InvertAllKeeps(ctl, t);
      Flush(false, exact);
      ghost var l2 := Logical();
      KeptClifford(m0, m1, ctl, |ctl|);
      FlushedClifford(prec, m1, qubits);
      if exact {
        ControlsAreReady(h, prec, exact, m1, qubits, ctl, t);
        PassPhase(h, Gates(qubits), ctl, a, t);
      }
      EnqueuePhase(c, a, o, exact);
      SameAtCall(h, exact, l0, l1, l2, Logical(), Controlled(o));
    }

    /** Notes that something has not been on the grid. */
    ghost method Concede(holds: bool)
      requires Valid()
      modifies this`fine
      ensures Valid() && fine == (old(fine) && holds) && Logical() == old(Logical()) && Total() == old(Total())
    {
      fine := fine && holds;
    }

    /** A phase under one control is an rz, which only waits. */
    method CtlPhaseOne(ctl: Control, a: Angle)
      requires Valid() && Quiet(qubits) && |ctl| == 1
      modifies this`qubits, this`fine, this`composed
      ensures Valid() && Quiet(qubits) && SameAt(h, true, old(Logical()) + [Controlled(CtlOp(ctl, Gphase(a)))], Logical())
      ensures fine == (old(fine) && OnGrid(a, prec)) && NewWell(h, numeric, prec, old(composed), composed)
      ensures AllClifford(old(qubits)) && a % PI_1_2 == 0 ==> AllClifford(qubits)
    {
      hide Simulator.Valid, Simulator.Logical, SameAt, Same, AllClifford, Quiet, NewWell, ComposesExactly, ComposesWell, Sharp,
        IsLevel, IsCircle, U.IsFine, OnGrid, UC.IsClifford, U.Rz, Neg;
      var q, z := ctl[0].qubit, if ctl[0].value then a else Neg(a);
      ghost var l0, g := Logical(), if q in qubits then qubits[q].pending else U.X;
      Sound();
      if fine {
        SharpIs(prec, qubits, queue.ops);
      }
      NewWellOne(h, numeric, prec, composed, g, U.Rz(z));
      RzComposes(h, numeric, prec, g, z);
      RzFine(a, z, prec);
      U3(q, U.Rz(z));
      SameAtOf(h, true, l0 + [Pend(h, q, U.Rz(z))], Logical());
      OneControl(h, true, l0, Logical(), ctl, a);
    }

    /** Applies a multiply controlled phase. */
    method CtlPhase(ctl: Control, a: Angle)
      requires Valid() && Quiet(qubits) && ValidControl(ctl)
      modifies this`applied, this`qubits, this`state, this`fine, this`composed, queue, state, state.data
      ensures Valid() && fresh(Repr() - old(Repr())) && Quiet(qubits)
      ensures SameAt(h, |ctl| <= 1 || (AllPlain(prec, old(qubits)) && Angles.IsPlain(a, prec)), old(Logical()) + [Controlled(CtlOp(ctl, Gphase(a)))], Logical())
      ensures fine == (old(fine) && (ctl == [] || OnGrid(a, prec))) && NewWell(h, numeric, prec, old(composed), composed)
      ensures AllClifford(old(qubits)) && (|ctl| == 1 ==> a % PI_1_2 == 0) ==> AllClifford(qubits)
      ensures Total() == old(Total())
    {
      hide Simulator.Valid, Simulator.Logical, Simulator.Total, SameAt;
      ghost var l0 := Logical();
      if |ctl| == 0 {
        NewWellOne(h, numeric, prec, composed, U.X, U.X);
        Sound();
        NoControl(h, true, l0, ctl, a);
      } else if |ctl| == 1 {
        CtlPhaseOne(ctl, a);
      } else {
        NewWellOne(h, numeric, prec, composed, U.X, U.X);
        Concede(OnGrid(a, prec));
        ghost var exact := AllPlain(prec, qubits) && Angles.IsPlain(a, prec);
        PlainAreTested(prec, qubits);
        if Round(a, prec) == PI {
          CtlPhasePi(ctl, a, exact);
        } else {
          CtlPhaseOther(ctl, a, exact);
        }
      }
    }

    method PreflushAll(ghost exact: bool)
      requires Valid() && Quiet(qubits)
      requires exact ==> Tested(prec, qubits)
      modifies this`applied, this`qubits, queue, state`data, state`n0, state`n1, state`partitionedBy
      ensures Valid() && (state.data == old(state.data) || fresh(state.data))
      ensures SameAt(h, exact, old(Logical()), Logical()) && Waiting(qubits, {})
      ensures Total() == old(Total())
      ensures exact ==> Tested(prec, qubits)
    {
      hide Simulator.Valid, Simulator.Logical, Simulator.Total, SameAt;
      ghost var was := Logical();
      SameAtRefl(h, exact, was);
      AllWait(qubits);
      var todo := qubits.Keys;
      while todo != {}
        invariant Valid() && (state.data == old(state.data) || fresh(state.data))
        invariant (exact ==> Tested(prec, qubits)) && Total() == old(Total())
        invariant SameAt(h, exact, was, Logical()) && Waiting(qubits, todo)
        decreases |todo|
      {
        var q :| q in todo;
        ghost var before, m := Logical(), qubits;
        WaitingAt(m, todo, q);
        var r := Preflush(q, ForAnything, exact);
        SameAtTrans(h, exact, was, before, Logical());
        WaitingStep(h, prec, exact, m, qubits, todo, q);
        todo := todo - {q};
      }
    }

    /** Applies everything that waits to the stored vector. */
    method FlushAll()
      requires Valid() && Quiet(qubits)
      modifies this`applied, this`qubits, this`state, queue, state, state.data
      ensures Valid() && fresh(Repr() - old(Repr())) && qubits == map[] && queue.ops == []
      ensures SameAt(h, AllPlain(prec, old(qubits)), old(Logical()), Logical())
      ensures Total() == old(Total())
    {
      hide Simulator.Valid, Simulator.Logical, Simulator.Total, SameAt;
      ghost var was, exact := Logical(), AllPlain(prec, qubits);
      PlainAreTested(prec, qubits);
      PreflushAll(exact);
      ghost var before, m := Logical(), qubits;
      Flush(true, exact);
      SameAtTrans(h, exact, was, before, Logical());
      NothingLeft(prec, m, qubits);
    }

    // Measuring

    /** The weights of the two values of a qubit in the stored vector. */
    method StoredWeights(q: Qubit) returns (r0: real, r1: real)
      requires Valid()
      ensures r0 >= 0.0 && r1 >= 0.0 && AreWeights(state.Contents(), q, r0, r1)
      ensures (r0 == 0.0 ==> M.OnlySide(state.Contents(), q, true)) && (r1 == 0.0 ==> M.OnlySide(state.Contents(), q, false))
    {
      hide P.GoodParts, P.Vector, Denotes, IsCircle, M.OnlySide, M.Weight, Mass, SideMass, IsDrifting, IsLevel, Sharp;
      ghost var p0, p1 := state.data[..state.n0], state.data[state.n0..state.n0 + state.n1];
      assert state.data[..state.n0 + state.n1] == p0 + p1;
      SidesAddUp(state.Contents(), q);
      if q >= WORD * state.words {
        BeyondWords(p0, p1, state.partitionedBy, state.words, q);
        NoSideMass(state.Contents(), q, true);
        return 1.0, 0.0;
      }
      r0, r1 := M.Weights(state.data, state.n0 + state.n1, q);
      M.WeightIsMass(p0, p1, state.partitionedBy, state.words, q, false);
      M.WeightIsMass(p0, p1, state.partitionedBy, state.words, q, true);
      if r0 == 0.0 {
        M.OnlySideOf(p0, p1, state.partitionedBy, state.words, q, true);
      }
      if r1 == 0.0 {
        M.OnlySideOf(p0, p1, state.partitionedBy, state.words, q, false);
      }
    }

    /** Prepares a qubit for measurement: what waits on it can at most flip it. */
    method Premeasure(q: Qubit, ghost exact: bool) returns (invert: bool, r0: real, r1: real)
      requires Valid() && Quiet(qubits)
      requires exact ==> Tested(prec, qubits)
      modifies this`applied, this`qubits, this`state, queue, state, state.data
      ensures Valid() && fresh(Repr() - old(Repr())) && Quiet(qubits)
      ensures SameAt(h, exact, old(Logical()), Logical()) && q !in queue.writeSet
      ensures exact ==> Measurable(h, qubits, q, invert)
      ensures r0 >= 0.0 && r1 >= 0.0 && AreWeights(state.Contents(), q, r0, r1)
      ensures (r0 == 0.0 ==> M.OnlySide(state.Contents(), q, true)) && (r1 == 0.0 ==> M.OnlySide(state.Contents(), q, false))
      ensures AllClifford(old(qubits)) ==> AllClifford(qubits)
      ensures Total() == old(Total())
    {
      hide Simulator.Valid, Simulator.Logical, Simulator.Total, SameAt, Tested, Matched, Touched, Flushed, AreWeights, M.OnlySide,
        Measurable, Quiet, Consistent, AllClifford, IsCircle, Sharp, IsLevel, AllValid;
      ghost var was, m0 := Logical(), qubits;
      QuietUnmarked(m0, [ControlItem(q, true)]);
      NotMarked(m0, q);
      var r := Preflush(q, ForControl, exact);
      TouchedQuiet(m0, qubits, q, []);
      TouchedClifford(m0, qubits, q);
      invert := r == AsXRz;
      ghost var before, m := Logical(), qubits;
      Sound();
      Flush(q in queue.writeSet, exact);
      Sound();
      FlushedClifford(prec, m, qubits);
      SameAtTrans(h, exact, was, before, Logical());
      if exact {
        MatchedMeasurable(h, prec, exact, m, qubits, q, r);
      }
      r0, r1 := StoredWeights(q);
    }

    /** Keeps one side of the stored vector. */
    method Collapse(q: Qubit, v: bool, factor: real) returns (ghost s: Complex)
      requires Valid()
      modifies this`applied, state`data, state`n0, state`n1, state.data
      ensures Valid() && (state.data == old(state.data) || fresh(state.data))
      ensures applied == old(applied) + [Single(q, Projection(v, s))] && s == Complex(factor, 0.0)
      ensures Clean(applied) == Clean(old(applied)) + [Single(q, Projection(v, s))]
      ensures Total() == Product(Norm2(s), SideMass(old(state.Contents()), q, v))
    {
      hide P.GoodParts, P.Vector, Denotes, IsCircle, Sharp, Projection, Mul, Mass, SideMass, Norm2, Product, IsDrifting, IsLevel, Sharp, Clean, SM.Measured, SM.Certain, SM.Factor;
      ghost var was, part := state.Contents(), state.partitionedBy;
      var k := Complex(factor, 0.0);
      var scale := (x: Complex) => Mul(k, x);
      state.Measure(q, v, scale, factor == 1.0);
      ghost var skip := factor == 1.0 && (part == Some(q) || SM.Certain(was, q, v));
      s := k;
      FactorScales(skip, k, scale, s);
      DenotesMeasured(h, was, start, applied, q, v, s, SM.Factor(skip, scale));
      MeasuredMass(was, q, v, SM.Factor(skip, scale), s);
      OneMoreGate(prec, applied, Single(q, Projection(v, s)));
      applied := applied + [Single(q, Projection(v, s))];
    }

    /** The same, unless the other side has no weight. */
    method KeepSide(q: Qubit, v: bool, other: real, factor: real) returns (ghost s: Complex)
      requires Valid() && (other == 0.0 ==> M.OnlySide(state.Contents(), q, v))
      modifies this`applied, state`data, state`n0, state`n1, state.data
      ensures Valid() && (state.data == old(state.data) || fresh(state.data))
      ensures applied == old(applied) + [Single(q, Projection(v, s))] && s == if other != 0.0 then Complex(factor, 0.0) else ONE
      ensures Clean(applied) == Clean(old(applied)) + [Single(q, Projection(v, s))]
      ensures Total() == if other != 0.0 then Product(Norm2(s), SideMass(old(state.Contents()), q, v)) else old(Total())
    {
      hide P.GoodParts, P.Vector, Denotes, IsCircle, Sharp, Projection, M.OnlySide, S.Statevector.Contents, Mass, SideMass, Norm2, Product, IsDrifting, IsLevel, Sharp, Clean;
      if other != 0.0 {
        s := Collapse(q, v, factor);
      } else {
        s := ONE;
        M.DenotesCertain(h, state.Contents(), start, applied, q, v);
        OneMoreGate(prec, applied, Single(q, Projection(v, ONE)));
        applied := applied + [Single(q, Projection(v, ONE))];
      }
    }

    /** Measures a qubit. The outcome, which has some weight, is drawn by the bias; `norm` gives the factor that makes
        the kept weight `w` one, and is not used where nothing is dropped. Without any weight there is no outcome. */
    method Measure(q: Qubit, bias: int, norm: real -> real)
      returns (res: Option<(bool, real, real)>, ghost s: Complex, ghost w: real)
      requires Valid() && Quiet(qubits) && 0 <= bias < TURN
      modifies this`applied, this`qubits, this`state, queue, state, state.data
      ensures Valid() && fresh(Repr() - old(Repr())) && Quiet(qubits)
      ensures res.None? ==> SameAt(h, AllPlain(prec, old(qubits)), old(Logical()), Logical()) && old(Total()) == 0.0 == Total()
      ensures res.Some? ==>
        SameAt(h, AllPlain(prec, old(qubits)), old(Logical()) + [Single(q, Projection(res.value.0, s))], Logical())
      ensures res.Some? ==> M.DrawnFairly(res.value, bias)
      ensures res.Some? ==>
        var dropped := if res.value.0 then res.value.1 else res.value.2;
        if dropped != 0.0 then s == Complex(norm(w), 0.0) && w == Product(1.0 - dropped, old(Total())) && Total() == Product(Norm2(s), w)
        else s == ONE && Total() == old(Total())
      ensures res.Some? && AllPlain(prec, old(qubits)) && IsLevel(applied) ==>
        IsShare(h, start, old(Logical()), q, res.value.2)
      ensures AllClifford(old(qubits)) ==> AllClifford(qubits)
    {
      hide Simulator.Valid, Simulator.Logical, Simulator.Total, SameAt, Log, M.OnlySide, M.Drawn, M.DrawnFairly, Measurable, Projection,
        Quiet, Norm2, Product, AreWeights, Mass, SideMass, AllPlain, Tested, Clean, IsLevel, Denotes, IsDrifting, IsCircle, Sharp, IsShare, AllValid;
      ghost var was, exact := Logical(), AllPlain(prec, qubits);
      PlainAreTested(prec, qubits);
      var invert, r0, r1 := Premeasure(q, exact);
      var sum := r0 + r1;
      s, w := ONE, 1.0;
      TotalIs();
      WeightsAddUp(state.Contents(), q, r0, r1);
      if sum == 0.0 {
        return None, s, w;
      }
      var b := if invert then TURN - 1 - bias else bias;
      var v := M.Drawn(r0, r1, b);
      ghost var before, oldApplied, all := Logical(), applied, Total();
      w := if v then r1 else r0;
      LogicalIs();
      ghost var seen, ops, m := state.Contents(), queue.ops, qubits;
      Stands();
      s := KeepSide(q, v, if v then r0 else r1, norm(if v then r1 else r0));
      Sound();
      LogicalIs();
      MeasuredCall(h, exact, Clean(oldApplied), queue.ops, qubits, q, invert, v, s);
      SameAtRefl(h, exact, before);
      SameAtCall(h, exact, was, before, before, Logical(), Single(q, Projection(v != invert, s)));
      if exact {
        ReportedShares(h, seen, start, oldApplied, Single(q, Projection(v, s)), ops, m, q, invert, r0, r1, was);
      }
      M.FairDraw(r0, r1, bias, invert);
      M.KeptWeight(r0, r1, v);
      M.Fractions(r0, r1);
      M.DrawnHasWeight(r0, r1, b);
      res := Some(if invert then (!v, r1 / sum, r0 / sum) else (v, r0 / sum, r1 / sum));
    }
  }
}
