/** The arithmetic circuits and the gate compiler put together. */
module ShorCompiled {
  import opened Controls
  import opened Ops
  import opened Registers
  import opened ShorCompare
  import opened ShorModular
  import CompileQueue
  import C = CompiledGates

  /** Compiling the multiplier circuit, at any precision, gives code that multiplies in place. */
  lemma CompiledMultiplies(code: seq<C.Compiled>, dropped: int, ops: OpSeq, err: int,
                           q: Register, a: nat, ctl: Qubit, m: nat,
                           acc: Register, arg: Register, addctl: Qubit, flag: Qubit, anc: Qubit, b: Bits)
    requires m > 0 && Multiplies(ops, q, a, ctl, m, acc, arg, addctl, flag, anc)
    requires CompileQueue.Simulates(code, {}, dropped, ops, {}, err)
    requires MulClean(b, arg, addctl, flag, anc) && Clear(b, acc) && Val(b, q) < m
    ensures Multiplied(b, C.BitsAll(code, b), q, a, ctl, m)
  {
    assert CompileQueue.SimulatesAt(code, {}, dropped, ops, {}, err, b);
    assert Flip(b, {}) == b;
    assert Flip(C.BitsAll(code, b), {}) == C.BitsAll(code, b);
  }
}
