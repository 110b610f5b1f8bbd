/**
 The queued operations (`Op` in `src/sfree/queue.rs`) and what they do when run one by one:
 the specification of the gate compiler, and the gate language of the arithmetic circuits.
 A basis state is its bits together with a phase; phases are kept as unreduced integers.
 */
module Ops {
  import opened Controls
  import opened Angles

  datatype Op =
    | Gphase(a: Angle)
    | X(q: Qubit)
    | Swap(q1: Qubit, q2: Qubit)
  {
    predicate Writes(t: Qubit) {
      match this
      case Gphase(_) => false
      case X(q) => q == t
      case Swap(q1, q2) => q1 == t || q2 == t
    }
  }

  datatype CtlOp = CtlOp(ctl: Control, op: Op)

  type OpSeq = seq<CtlOp>

  /** What the simulator asserts of every gate it queues: controls and targets do not alias. */
  ghost predicate Valid(o: CtlOp) {
    && ValidControl(o.ctl)
    && (forall q :: o.op.Writes(q) ==> !Uses(o.ctl, q))
    && (o.op.Swap? ==> o.op.q1 != o.op.q2)
  }

  ghost predicate AllValid(ops: OpSeq) {
    forall i :: 0 <= i < |ops| ==> Valid(ops[i])
  }

  /** All phases are on the grid of the precision: every sequence from precision 64 on. */
  ghost predicate AllOnGrid(ops: OpSeq, prec: nat) {
    forall i :: 0 <= i < |ops| && ops[i].op.Gphase? ==> OnGrid(ops[i].op.a, prec)
  }

  lemma GridSnoc(ops: OpSeq, o: CtlOp, prec: nat)
    ensures AllOnGrid(ops + [o], prec) <==> AllOnGrid(ops, prec) && (o.op.Gphase? ==> OnGrid(o.op.a, prec))
  {
    hide OnGrid;
    var all := ops + [o];
    assert forall i :: 0 <= i < |ops| ==> all[i] == ops[i];
    assert all[|ops|] == o;
  }

  lemma AllOnGridAt64(ops: OpSeq, prec: nat)
    requires prec >= 64
    ensures AllOnGrid(ops, prec)
  {
    forall i | 0 <= i < |ops| && ops[i].op.Gphase? ensures OnGrid(ops[i].op.a, prec) {
      TimesIsMultiple(ops[i].op.a, 1);
    }
  }

  function SwapBits(b: Bits, q1: Qubit, q2: Qubit): Bits {
    if (q1 in b) != (q2 in b) then Flip(b, {q1, q2}) else b
  }

  function OpBits(o: CtlOp, b: Bits): Bits {
    if !Holds(o.ctl, b) then b else
    match o.op
    case Gphase(_) => b
    case X(q) => Flip(b, {q})
    case Swap(q1, q2) => SwapBits(b, q1, q2)
  }

  function OpArg(o: CtlOp, b: Bits): int {
    if Holds(o.ctl, b) && o.op.Gphase? then o.op.a else 0
  }

  function Run(ops: OpSeq, b: Bits): Bits {
    if ops == [] then b else OpBits(ops[|ops| - 1], Run(ops[..|ops| - 1], b))
  }

  function RunArg(ops: OpSeq, b: Bits): int {
    if ops == [] then 0
    else RunArg(ops[..|ops| - 1], b) + OpArg(ops[|ops| - 1], Run(ops[..|ops| - 1], b))
  }

  lemma RunSnoc(ops: OpSeq, o: CtlOp, b: Bits)
    ensures Run(ops + [o], b) == OpBits(o, Run(ops, b))
    ensures RunArg(ops + [o], b) == RunArg(ops, b) + OpArg(o, Run(ops, b))
  {
    assert (ops + [o])[..|ops|] == ops;
  }

  lemma RunOne(o: CtlOp, b: Bits)
    ensures Run([o], b) == OpBits(o, b) && RunArg([o], b) == OpArg(o, b)
    ensures CtlItems([o]) == |o.ctl|
  {
    assert [o][..0] == [];
  }

  /** Running a concatenation is running the parts in order. */
  lemma {:induction false} RunConcat(s: OpSeq, t: OpSeq, b: Bits)
    ensures Run(s + t, b) == Run(t, Run(s, b))
    ensures RunArg(s + t, b) == RunArg(s, b) + RunArg(t, Run(s, b))
    decreases |t|
  {
    if t == [] {
      assert s + t == s;
    } else {
      var u, o := t[..|t| - 1], t[|t| - 1];
      assert s + t == (s + u) + [o] && t == u + [o];
      RunConcat(s, u, b);
      RunSnoc(s + u, o, b);
      RunSnoc(u, o, Run(s, b));
    }
  }

  /** No operation of the sequence writes `q`. */
  predicate Spares(ops: OpSeq, q: Qubit) {
    forall i :: 0 <= i < |ops| ==> !ops[i].op.Writes(q)
  }

  lemma {:induction false} SparedBitKept(ops: OpSeq, q: Qubit, b: Bits)
    requires Spares(ops, q)
    ensures q in Run(ops, b) <==> q in b
    decreases |ops|
  {
    if ops != [] {
      SparedBitKept(ops[..|ops| - 1], q, b);
    }
  }

  /** The number of control items, the measure on which compilation recurses. */
  function CtlItems(ops: OpSeq): nat {
    if ops == [] then 0 else CtlItems(ops[..|ops| - 1]) + |ops[|ops| - 1].ctl|
  }

  /** The number of operations plus the number of control items. */
  function Weight(ops: OpSeq): nat {
    |ops| + CtlItems(ops)
  }

  lemma CtlItemsSnoc(ops: OpSeq, o: CtlOp)
    ensures CtlItems(ops + [o]) == CtlItems(ops) + |o.ctl|
  {
    assert (ops + [o])[..|ops|] == ops;
  }

  lemma {:induction false} CtlItemsConcat(s: OpSeq, t: OpSeq)
    ensures CtlItems(s + t) == CtlItems(s) + CtlItems(t)
    decreases |t|
  {
    if t == [] {
      assert s + t == s;
    } else {
      var u, o := t[..|t| - 1], t[|t| - 1];
      assert s + t == (s + u) + [o] && t == u + [o];
      CtlItemsConcat(s, u);
      CtlItemsSnoc(s + u, o);
      CtlItemsSnoc(u, o);
    }
  }

  /** A valid operation undoes itself. */
  lemma OpInvolutive(o: CtlOp, b: Bits)
    requires Valid(o)
    ensures OpBits(o, OpBits(o, b)) == b
  {
    if Holds(o.ctl, b) {
      assert Holds(o.ctl, OpBits(o, b)) by {
        forall i | 0 <= i < |o.ctl| ensures o.ctl[i].qubit in OpBits(o, b) <==> o.ctl[i].qubit in b {
          assert Uses(o.ctl, o.ctl[i].qubit);
        }
      }
    }
  }

  function Reverse(ops: OpSeq): (r: OpSeq)
    ensures |r| == |ops|
    ensures forall i :: 0 <= i < |ops| ==> r[i] == ops[|ops| - 1 - i]
  {
    if ops == [] then [] else [ops[|ops| - 1]] + Reverse(ops[..|ops| - 1])
  }

  /** Running the operations backwards undoes them: the compute/uncompute pattern. */
  lemma {:induction false} RunBack(ops: OpSeq, b: Bits)
    requires AllValid(ops)
    ensures Run(Reverse(ops), Run(ops, b)) == b
    decreases |ops|
  {
    if ops != [] {
      var o, rest := ops[|ops| - 1], ops[..|ops| - 1];
      RunBack(rest, b);
      RunConcat([o], Reverse(rest), Run(ops, b));
      RunOne(o, Run(ops, b));
      OpInvolutive(o, Run(rest, b));
    }
  }

  /** Running a valid sequence maps distinct basis states to distinct basis states. */
  lemma RunInjective(ops: OpSeq, b: Bits, c: Bits)
    requires AllValid(ops) && Run(ops, b) == Run(ops, c)
    ensures b == c
  {
    RunBack(ops, b);
    RunBack(ops, c);
  }
}
