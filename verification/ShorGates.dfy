/**
 The gates that the circuits of `examples/py/shor.py` issue. A simulator object records them in
 order; a circuit is correct if its gate list does the right thing on every basis state.
 */
module ShorGates {
  import opened Controls
  import opened Ops

  function XOp(t: Qubit): CtlOp {
    CtlOp([], X(t))
  }

  function CxOp(c: Qubit, t: Qubit): CtlOp {
    CtlOp([ControlItem(c, true)], X(t))
  }

  function CcxOp(c1: Qubit, c2: Qubit, t: Qubit): CtlOp {
    CtlOp(if c1 < c2 then [ControlItem(c1, true), ControlItem(c2, true)]
          else [ControlItem(c2, true), ControlItem(c1, true)], X(t))
  }

  function CswapOp(c: Qubit, x: Qubit, y: Qubit): CtlOp {
    CtlOp([ControlItem(c, true)], Swap(x, y))
  }

  // What the gates do to one basis state

  function Toggle(s: Bits, cond: bool, t: Qubit): (r: Bits)
    ensures forall x :: x in r <==> (x in s) != (cond && x == t)
  {
    if cond then Flip(s, {t}) else s
  }

  function Cx(s: Bits, c: Qubit, t: Qubit): Bits {
    Toggle(s, c in s, t)
  }

  function Ccx(s: Bits, c1: Qubit, c2: Qubit, t: Qubit): Bits {
    Toggle(s, c1 in s && c2 in s, t)
  }

  lemma XMeans(t: Qubit, s: Bits)
    ensures OpBits(XOp(t), s) == Toggle(s, true, t)
    ensures Valid(XOp(t))
  {
  }

  lemma CxMeans(c: Qubit, t: Qubit, s: Bits)
    ensures OpBits(CxOp(c, t), s) == Cx(s, c, t)
    ensures c != t ==> Valid(CxOp(c, t))
  {
    var ctl := CxOp(c, t).ctl;
    assert Holds(ctl, s) <==> (ctl[0].qubit in s) == ctl[0].value;
  }

  lemma CcxMeans(c1: Qubit, c2: Qubit, t: Qubit, s: Bits)
    ensures OpBits(CcxOp(c1, c2, t), s) == Ccx(s, c1, c2, t)
    ensures c1 != c2 && c1 != t && c2 != t ==> Valid(CcxOp(c1, c2, t))
  {
    var ctl := CcxOp(c1, c2, t).ctl;
    assert Holds(ctl, s) <==> (ctl[0].qubit in s) == ctl[0].value && (ctl[1].qubit in s) == ctl[1].value;
  }

  lemma CswapMeans(c: Qubit, x: Qubit, y: Qubit, s: Bits)
    ensures OpBits(CswapOp(c, x, y), s) == if c in s then SwapBits(s, x, y) else s
    ensures c != x && c != y && x != y ==> Valid(CswapOp(c, x, y))
  {
    var ctl := CswapOp(c, x, y).ctl;
    assert Holds(ctl, s) <==> (ctl[0].qubit in s) == ctl[0].value;
  }

  lemma RunTwo(o1: CtlOp, o2: CtlOp, b: Bits)
    ensures Run([o1, o2], b) == OpBits(o2, OpBits(o1, b))
  {
    assert [o1, o2][..1] == [o1];
    RunOne(o1, b);
  }

  lemma RunThree(o1: CtlOp, o2: CtlOp, o3: CtlOp, b: Bits)
    ensures Run([o1, o2, o3], b) == OpBits(o3, OpBits(o2, OpBits(o1, b)))
  {
    assert [o1, o2, o3][..2] == [o1, o2];
    RunTwo(o1, o2, b);
  }

  lemma RunFour(o1: CtlOp, o2: CtlOp, o3: CtlOp, o4: CtlOp, b: Bits)
    ensures Run([o1, o2, o3, o4], b) == OpBits(o4, OpBits(o3, OpBits(o2, OpBits(o1, b))))
  {
    assert [o1, o2, o3, o4][..3] == [o1, o2, o3];
    RunThree(o1, o2, o3, b);
  }

  lemma RunFive(o1: CtlOp, o2: CtlOp, o3: CtlOp, o4: CtlOp, o5: CtlOp, b: Bits)
    ensures Run([o1, o2, o3, o4, o5], b) == OpBits(o5, OpBits(o4, OpBits(o3, OpBits(o2, OpBits(o1, b)))))
  {
    assert [o1, o2, o3, o4, o5][..4] == [o1, o2, o3, o4];
    RunFour(o1, o2, o3, o4, b);
  }

  lemma ValidConcat(s: OpSeq, t: OpSeq)
    requires AllValid(s) && AllValid(t)
    ensures AllValid(s + t)
  {
  }

  /** The simulator object, as far as the circuits use it. */
  class Simulator {
    var ops: OpSeq

    constructor ()
      ensures ops == []
    {
      ops := [];
    }

    method X(t: Qubit)
      modifies this
      ensures ops == old(ops) + [XOp(t)]
    {
      ops := ops + [XOp(t)];
    }

    method Cx(c: Qubit, t: Qubit)
      requires c != t
      modifies this
      ensures ops == old(ops) + [CxOp(c, t)]
    {
      ops := ops + [CxOp(c, t)];
    }

    method Ccx(c1: Qubit, c2: Qubit, t: Qubit)
      requires c1 != c2 && c1 != t && c2 != t
      modifies this
      ensures ops == old(ops) + [CcxOp(c1, c2, t)]
    {
      ops := ops + [CcxOp(c1, c2, t)];
    }

    method Cswap(c: Qubit, x: Qubit, y: Qubit)
      requires c != x && c != y && x != y
      modifies this
      ensures ops == old(ops) + [CswapOp(c, x, y)]
    {
      ops := ops + [CswapOp(c, x, y)];
    }
  }
}
