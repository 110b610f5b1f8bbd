/**
 Flushing the gate queue into the state vector: the compiler (`src/sfree/queue.rs`) and the vector
 (`perform_sfree` in `src/statevector.rs`) put together.
 */
module SfreeUpdate {
  import opened Angles
  import opened Wrappers
  import opened Controls
  import opened Ops
  import opened BasisOrder
  import opened CompiledGates
  import opened SparseParts
  import opened SparseSorting
  import Q = CompileQueue
  import S = SparseStatevector

  /** Code that simulates operations on qubits within the words relabels the states one to one. */
  lemma CodeRelabels(code: seq<Compiled>, ops: OpSeq, phase: int, err: int, words: nat)
    requires AllValid(ops) && Q.Simulates(code, {}, phase, ops, {}, err)
    requires WritesAll(code) <= Q.WritesOf(ops) && forall q :: q in Q.WritesOf(ops) ==> q < WORD * words
    ensures Relabels(code, words)
  {
    hide Q.Simulates, AllValid;
    forall b, c | BitsAll(code, b) == BitsAll(code, c) ensures b == c {
      Q.CodeInjective(code, {}, phase, ops, {}, err, b, c);
    }
    forall b | Fits(b, words) ensures Fits(BitsAll(code, b), words) {
      forall q | q in BitsAll(code, b) ensures q < WORD * words {
        if q !in WritesAll(code) {
          SeqKeepsOthers(code, b, q);
        }
      }
    }
  }

  /** Turning an amplitude by two phases is turning it by their sum. */
  ghost predicate TurnsAdd<V(!new)>(rot: Rot<V>) {
    && (forall v :: rot(0, v) == v)
    && (forall a: Angle, b: Angle, v :: rot(a, rot(b, v)) == rot(Wrap(a + b), v))
  }

  lemma WrapSum(x: int, y: int)
    ensures Wrap(Wrap(x) + Wrap(y)) == Wrap(x + y)
  {
  }

  lemma TurnTwice<V(!new)>(rot: Rot<V>, a: Angle, b: Angle, v: V)
    requires TurnsAdd(rot)
    ensures rot(a, rot(b, v)) == rot(Wrap(a + b), v) && rot(0, v) == v
  {
    hide Wrap;
  }

  lemma {:induction false} RotateSum<V(!new)>(rot: Rot<V>, phases: seq<Angle>, v: V)
    requires TurnsAdd(rot)
    ensures Rotate(rot, phases, v) == rot(Wrap(Q.Sum(phases)), v)
    decreases |phases|
  {
    hide TurnsAdd;
    TurnTwice(rot, 0, 0, v);
    if phases != [] {
      var n := |phases| - 1;
      RotateSum(rot, phases[..n], v);
      WrapSelf(phases[n]);
      WrapSum(phases[n], Q.Sum(phases[..n]));
      hide Wrap;
      TurnTwice(rot, phases[n], Wrap(Q.Sum(phases[..n])), v);
    }
  }

  lemma WrapSelf(a: Angle)
    ensures Wrap(a) == a
  {
  }

  /** The vector `m'` is `m` with the operations run one by one on every basis state, each state then turned by `d` of it,
      up to the one phase `g`. */
  ghost predicate OpsApplied<V>(m: map<Bits, V>, m': map<Bits, V>, ops: OpSeq, rot: Rot<V>, g: int, d: Bits -> int) {
    && (forall b :: b in m ==> Run(ops, b) in m' && rot(Wrap(g), m'[Run(ops, b)]) == rot(Wrap(RunArg(ops, b) + d(Run(ops, b))), m[b]))
    && (forall c :: c in m' ==> exists b :: b in m && Run(ops, b) == c)
  }

  /** What the phases of the code add to those of the operations, by the state that results. */
  ghost function DriftOf(code: seq<Compiled>, ops: OpSeq, phase: int): Bits -> int {
    (x: Bits) => Q.Arg(code, Run(Reverse(ops), x)) + phase - RunArg(ops, Run(Reverse(ops), x))
  }

  const NO_DRIFT: Bits -> int := (x: Bits) => 0

  /** The code moves states as the operations do, and `d` accounts for its phases. */
  ghost predicate Accounts(code: seq<Compiled>, ops: OpSeq, phase: int, d: Bits -> int) {
    forall b {:trigger BitsAll(code, b)} :: AccountsAt(code, ops, phase, d, b)
  }

  ghost predicate AccountsAt(code: seq<Compiled>, ops: OpSeq, phase: int, d: Bits -> int, b: Bits) {
    BitsAll(code, b) == Run(ops, b) && Wrap(RunArg(ops, b) + d(Run(ops, b))) == Wrap(Q.Arg(code, b) + phase)
  }

  lemma SimulatedState(code: seq<Compiled>, ops: OpSeq, phase: int, err: int, b: Bits)
    requires Q.Simulates(code, {}, phase, ops, {}, err)
    ensures BitsAll(code, b) == Run(ops, b) && Circ(Q.Arg(code, b) + phase - RunArg(ops, b)) <= err
  {
    assert Q.SimulatesAt(code, {}, phase, ops, {}, err, b);
    assert Flip(b, {}) == b && Flip(BitsAll(code, b), {}) == BitsAll(code, b);
    hide Circ;
  }

  /** The drift of simulating code accounts for its phases, and is within the error of the simulation. */
  lemma DriftAccounts(code: seq<Compiled>, ops: OpSeq, phase: int, err: int)
    requires AllValid(ops) && Q.Simulates(code, {}, phase, ops, {}, err)
    ensures Accounts(code, ops, phase, DriftOf(code, ops, phase))
    ensures forall x :: Circ(DriftOf(code, ops, phase)(x)) <= err
  {
    hide Circ, Q.Simulates, Run, RunArg, Wrap, Reverse;
    var d := DriftOf(code, ops, phase);
    forall b ensures AccountsAt(code, ops, phase, d, b) {
      SimulatedState(code, ops, phase, err, b);
      RunBack(ops, b);
    }
    forall x ensures Circ(d(x)) <= err {
      SimulatedState(code, ops, phase, err, Run(Reverse(ops), x));
    }
  }

  /** With all phases on the grid of the precision, there is nothing to account for. */
  lemma ExactAccounts(code: seq<Compiled>, ops: OpSeq, phase: int, prec: nat)
    requires AllOnGrid(ops, prec) && Q.Simulates(code, {}, phase, ops, {}, Q.Drift(ops, prec))
    ensures Accounts(code, ops, phase, NO_DRIFT)
  {
    hide Q.Simulates, Q.Drift, AllOnGrid, Run, RunArg, Wrap;
    forall b ensures AccountsAt(code, ops, phase, NO_DRIFT, b) {
      SimulatedState(code, ops, phase, Q.Drift(ops, prec), b);
      Q.ExactOnGrid(code, {}, phase, ops, {}, prec, b);
      assert Flip(b, {}) == b;
    }
  }

  lemma ArgIs(code: seq<Compiled>, b: Bits)
    ensures Q.Arg(code, b) == Q.Sum(PhasesAll(code, b))
  {
  }

  lemma Accounted(code: seq<Compiled>, ops: OpSeq, phase: int, d: Bits -> int, b: Bits)
    requires AccountsAt(code, ops, phase, d, b)
    ensures BitsAll(code, b) == Run(ops, b) && Wrap(RunArg(ops, b) + d(Run(ops, b))) == Wrap(Q.Arg(code, b) + phase)
  {
    hide BitsAll, Run, Wrap, RunArg, Q.Arg;
  }

  lemma StateApplied<V(!new)>(v: V, code: seq<Compiled>, ops: OpSeq, phase: int, d: Bits -> int, rot: Rot<V>, b: Bits)
    requires AccountsAt(code, ops, phase, d, b) && TurnsAdd(rot)
    ensures BitsAll(code, b) == Run(ops, b)
    ensures rot(Wrap(phase), Rotate(rot, PhasesAll(code, b), v)) == rot(Wrap(RunArg(ops, b) + d(Run(ops, b))), v)
  {
    hide *;
    Accounted(code, ops, phase, d, b);
    var phases := PhasesAll(code, b);
    RotateSum(rot, phases, v);
    ArgIs(code, b);
    WrapSum(phase, Q.Sum(phases));
    TurnTwice(rot, Wrap(phase), Wrap(Q.Sum(phases)), v);
  }

  lemma RelabelledAt<V(!new)>(m: map<Bits, V>, m': map<Bits, V>, code: seq<Compiled>, ops: OpSeq, phase: int, d: Bits -> int, rot: Rot<V>, b: Bits)
    requires Relabelled(m, m', code, rot) && TurnsAdd(rot) && b in m && AccountsAt(code, ops, phase, d, b)
    ensures Run(ops, b) in m' && rot(Wrap(phase), m'[Run(ops, b)]) == rot(Wrap(RunArg(ops, b) + d(Run(ops, b))), m[b])
  {
    assert BitsAll(code, b) in m' && m'[BitsAll(code, b)] == Rotate(rot, PhasesAll(code, b), m[b]);
    hide *;
    StateApplied(m[b], code, ops, phase, d, rot, b);
  }

  lemma RelabelledFrom<V(!new)>(m: map<Bits, V>, m': map<Bits, V>, code: seq<Compiled>, ops: OpSeq, phase: int, d: Bits -> int, rot: Rot<V>, c: Bits)
    requires Relabelled(m, m', code, rot) && c in m' && Accounts(code, ops, phase, d)
    ensures exists b :: b in m && Run(ops, b) == c
  {
    var b :| b in m && BitsAll(code, b) == c;
    assert AccountsAt(code, ops, phase, d, b);
    hide *;
    Accounted(code, ops, phase, d, b);
  }

  lemma AccountsIs(code: seq<Compiled>, ops: OpSeq, phase: int, d: Bits -> int, b: Bits)
    requires Accounts(code, ops, phase, d)
    ensures AccountsAt(code, ops, phase, d, b)
  {
    var c := BitsAll(code, b);
    hide AccountsAt, BitsAll;
  }

  /** A relabelling by code that the operations account for is the operations themselves, with the drift. */
  lemma RelabelledIsApplied<V(!new)>(m: map<Bits, V>, m': map<Bits, V>, code: seq<Compiled>, ops: OpSeq, phase: int, d: Bits -> int, rot: Rot<V>)
    requires Relabelled(m, m', code, rot) && TurnsAdd(rot) && Accounts(code, ops, phase, d)
    ensures OpsApplied(m, m', ops, rot, phase, d)
  {
    hide *;
    forall b | b in m
      ensures Run(ops, b) in m' && rot(Wrap(phase), m'[Run(ops, b)]) == rot(Wrap(RunArg(ops, b) + d(Run(ops, b))), m[b]) {
      AccountsIs(code, ops, phase, d, b);
      RelabelledAt(m, m', code, ops, phase, d, rot, b);
    }
    forall c | c in m' ensures exists b :: b in m && Run(ops, b) == c {
      RelabelledFrom(m, m', code, ops, phase, d, rot, c);
    }
    Applied(m, m', ops, rot, phase, d);
  }

  lemma Applied<V>(m: map<Bits, V>, m': map<Bits, V>, ops: OpSeq, rot: Rot<V>, g: int, d: Bits -> int)
    requires forall b :: b in m ==> Run(ops, b) in m' && rot(Wrap(g), m'[Run(ops, b)]) == rot(Wrap(RunArg(ops, b) + d(Run(ops, b))), m[b])
    requires forall c :: c in m' ==> exists b :: b in m && Run(ops, b) == c
    ensures OpsApplied(m, m', ops, rot, g, d)
  {
    hide Run, RunArg, Wrap;
  }

  /** Compiles the queue for a vector of so many words. */
  method CompileFor(queue: Q.Queue, prec: nat, words: nat)
    returns (res: Option<Compiled>, shuffle: bool, modified: set<Qubit>, ghost dropped: int)
    requires queue.IsValid() && forall q :: q in queue.writeSet ==> q < WORD * words
    modifies queue
    ensures queue.IsValid() && queue.ops == []
    ensures Q.Simulates(if res.Some? then [res.value] else [], {}, dropped, old(queue.ops), {}, Q.Drift(old(queue.ops), prec))
    ensures res.Some? ==> Relabels([res.value], words) && modified == WritesAll([res.value]) && shuffle == SplitsAny([res.value])
    ensures forall q :: q in modified ==> q < WORD * words
  {
    ghost var ops := queue.ops;
    var st := new Q.Stat();
    res, dropped := queue.Compile(st, prec, words);
    CodeRelabels(if res.Some? then [res.value] else [], ops, dropped, Q.Drift(ops, prec), words);
    shuffle, modified := st.shuffle, st.modified;
  }

  /** Empties the queue into the vector. Whatever the precision, it is the operations run one by one, up to one phase, with
      a drift within the bound; with all phases on the grid of the precision there is no drift. */
  method PerformSfree<V(0,!new)>(sv: S.Statevector<V>, queue: Q.Queue, prec: nat, rot: Rot<V>,
                                 size0: nat, size1: nat, count: nat, chunks: nat, maxSeq: nat)
    returns (ghost code: seq<Compiled>, ghost dropped: int, ghost d: Bits -> int)
    requires sv.Valid() && queue.IsValid() && size0 > 0 && size1 > 0
    requires forall q :: q in queue.writeSet ==> q < WORD * sv.words
    modifies queue, sv`data, sv`n0, sv`n1, sv`partitionedBy, sv.data
    ensures queue.IsValid() && queue.ops == [] && sv.Valid() && (sv.data == old(sv.data) || fresh(sv.data))
    ensures Q.Simulates(code, {}, dropped, old(queue.ops), {}, Q.Drift(old(queue.ops), prec))
    ensures Relabelled(old(sv.Contents()), sv.Contents(), code, rot)
    ensures TurnsAdd(rot) ==> OpsApplied(old(sv.Contents()), sv.Contents(), old(queue.ops), rot, dropped, d)
    ensures forall x :: Circ(d(x)) <= Q.Drift(old(queue.ops), prec)
    ensures AllOnGrid(old(queue.ops), prec) ==> d == NO_DRIFT
  {
    hide GoodParts, Vector, Relabels, Relabelled, Q.Simulates, AllValid, TurnsAdd, OpsApplied, Q.Drift, AllOnGrid, DriftOf, Circ,
      Accounts;
    ghost var ops, was := queue.ops, sv.Contents();
    var res, shuffle, modified;
    res, shuffle, modified, dropped := CompileFor(queue, prec, sv.words);
    code := if res.Some? then [res.value] else [];
    sv.PerformCompiled(res, shuffle, modified, rot, size0, size1, count, chunks, maxSeq);
    d := Drifting(code, ops, dropped, prec);
    if TurnsAdd(rot) {
      RelabelledIsApplied(was, sv.Contents(), code, ops, dropped, d, rot);
    }
  }

  /** The drift of compiled code; none is counted where none is possible. */
  lemma Drifting(code: seq<Compiled>, ops: OpSeq, dropped: int, prec: nat) returns (d: Bits -> int)
    requires AllValid(ops) && Q.Simulates(code, {}, dropped, ops, {}, Q.Drift(ops, prec))
    ensures Accounts(code, ops, dropped, d) && forall x :: Circ(d(x)) <= Q.Drift(ops, prec)
    ensures AllOnGrid(ops, prec) ==> d == NO_DRIFT
  {
    hide Q.Simulates, AllValid, Q.Drift, AllOnGrid, DriftOf, Accounts;
    if AllOnGrid(ops, prec) {
      ExactAccounts(code, ops, dropped, prec);
      d := NO_DRIFT;
      assert Circ(0) == 0;
    } else {
      DriftAccounts(code, ops, dropped, Q.Drift(ops, prec));
      d := DriftOf(code, ops, dropped);
      hide Circ;
    }
  }
}
