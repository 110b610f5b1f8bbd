/**
 The compiler of superposition-free operations (`src/sfree/queue.rs`).
 X gates are not emitted but collected in `toggled`; a run of operations that share a control
 is split into two branches, compiled separately and reconciled.
 */
module CompileQueue {
  import opened Wrappers
  import opened Angles
  import opened Controls
  import opened Ops
  import C = CompiledGates
  import U = U3Gates

  const THRES_PART_FAIL: int := -2
  const THRES_PART_DO: nat := 5

  // What compiled code must do

  function Sum(s: seq<Angle>): int {
    if s == [] then 0 else Sum(s[..|s| - 1]) + s[|s| - 1]
  }

  /** The phase a sequence of compiled gates adds on a basis state. */
  function Arg(s: seq<C.Compiled>, b: Bits): int {
    Sum(C.PhasesAll(s, b))
  }

  lemma {:induction false} SumConcat(s: seq<Angle>, t: seq<Angle>)
    ensures Sum(s + t) == Sum(s) + Sum(t)
    decreases |t|
  {
    if t == [] {
      assert s + t == s;
    } else {
      assert (s + t)[..|s + t| - 1] == s + t[..|t| - 1];
      SumConcat(s, t[..|t| - 1]);
    }
  }

  lemma SnocMeans(s: seq<C.Compiled>, c: C.Compiled, b: Bits)
    ensures C.BitsAll(s + [c], b) == C.Bits1(c, C.BitsAll(s, b))
    ensures Arg(s + [c], b) == Arg(s, b) + Sum(C.Phases1(c, C.BitsAll(s, b)))
  {
    C.AllSnoc(s, c);
    SumConcat(C.PhasesAll(s, b), C.Phases1(c, C.BitsAll(s, b)));
  }

  lemma {:induction false} ConcatMeans(s: seq<C.Compiled>, t: seq<C.Compiled>, b: Bits)
    ensures C.BitsAll(s + t, b) == C.BitsAll(t, C.BitsAll(s, b))
    ensures Arg(s + t, b) == Arg(s, b) + Arg(t, C.BitsAll(s, b))
    decreases |t|
  {
    if t == [] {
      assert s + t == s;
    } else {
      var u, c := t[..|t| - 1], t[|t| - 1];
      assert s + t == (s + u) + [c] && t == u + [c];
      ConcatMeans(s, u, b);
      SnocMeans(s + u, c, b);
      SnocMeans(u, c, C.BitsAll(s, b));
    }
  }

  /** On the basis state `b`: running `code`, then flipping the outgoing toggles and adding the
      outgoing phase, is flipping the incoming toggles and running `ops`, up to a phase error. */
  ghost predicate SimulatesAt(code: seq<C.Compiled>, out: set<Qubit>, phase: int, ops: OpSeq, inc: set<Qubit>, err: int, b: Bits) {
    && Flip(C.BitsAll(code, b), out) == Run(ops, Flip(b, inc))
    && Near(Arg(code, b) + phase, RunArg(ops, Flip(b, inc)), err)
  }

  ghost predicate Simulates(code: seq<C.Compiled>, out: set<Qubit>, phase: int, ops: OpSeq, inc: set<Qubit>, err: int) {
    forall b: Bits :: SimulatesAt(code, out, phase, ops, inc, err, b)
  }

  /** Simulations compose; only the sum of the phases matters, modulo one turn. */
  lemma SimulatesConcat(r: seq<C.Compiled>, t: set<Qubit>, p: int, ops: OpSeq, t0: set<Qubit>, e: int,
                        s: seq<C.Compiled>, t': set<Qubit>, d: int, more: OpSeq, f: int, p': int)
    requires Simulates(r, t, p, ops, t0, e) && Simulates(s, t', d, more, t, f)
    requires Near(p', p + d, 0)
    ensures Simulates(r + s, t', p', ops + more, t0, e + f)
  {
    hide Near, C.BitsAll, Arg, Run, RunArg;
    var code, all, err := r + s, ops + more, e + f;
    forall b: Bits ensures SimulatesAt(code, t', p', all, t0, err, b) {
      var m := C.BitsAll(r, b);
      assert SimulatesAt(r, t, p, ops, t0, e, b);
      assert SimulatesAt(s, t', d, more, t, f, m);
      ConcatMeans(r, s, b);
      RunConcat(ops, more, Flip(b, t0));
      NearAdd(Arg(r, b) + p, RunArg(ops, Flip(b, t0)), e, Arg(s, m) + d, RunArg(more, Flip(m, t)), f);
      NearAdd(p', p + d, 0, Arg(r + s, b), Arg(r + s, b), 0) by { NearRefl(Arg(r + s, b)); }
      NearTrans(Arg(r + s, b) + p', Arg(r + s, b) + p + d, RunArg(ops + more, Flip(b, t0)), 0, e + f);
    }
  }

  lemma NearRefl(x: int)
    ensures Near(x, x, 0)
  {
  }

  // Emitting gates

  function MakeControlled(ctl: Control, g: C.Gate): C.Compiled {
    if |ctl| == 0 then C.FromGate(g)
    else if |ctl| == 1 then C.FromGate(C.SinglyControlled(ctl[0].value, ctl[0].qubit, g))
    else C.FromGate(C.MultiControlled(ctl, g))
  }

  lemma MadeMeans(ctl: Control, g: C.Gate, b: Bits)
    requires ValidControl(ctl)
    ensures var c := MakeControlled(ctl, g);
      && C.Bits1(c, b) == (if Holds(ctl, b) then C.GateBits(g, b) else b)
      && C.Phases1(c, b) == (if Holds(ctl, b) then C.GatePhases(g, b) else [])
      && C.Writes1(c) == C.GateWrites(g) && !C.Splits1(c) && C.Gates1(c) == 1
  {
    if |ctl| >= 2 {
      C.MaskMeansHolds(ctl, b);
    }
  }

  /** The gate emitted for a phase: none, one of the seven named ones, or the unrounded angle. */
  function PhaseCode(ctl: Control, a: Angle, prec: nat): seq<C.Compiled> {
    var r := Round(a, prec);
    if r == 0 then []
    else if r == PI_1_4 then [MakeControlled(ctl, C.Pt)]
    else if r == PI_1_2 then [MakeControlled(ctl, C.Ps)]
    else if r == PI_3_4 then [MakeControlled(ctl, C.Pt3)]
    else if r == PI then [MakeControlled(ctl, C.Pz)]
    else if r == PI_5_4 then [MakeControlled(ctl, C.Pt5)]
    else if r == PI_3_2 then [MakeControlled(ctl, C.Psdg)]
    else if r == PI_7_4 then [MakeControlled(ctl, C.Ptdg)]
    else [MakeControlled(ctl, C.P(a))]
  }

  lemma OneGateMeans(c: C.Compiled, b: Bits)
    ensures C.BitsAll([c], b) == C.Bits1(c, b)
    ensures Arg([c], b) == Sum(C.Phases1(c, b))
    ensures C.WritesAll([c]) == C.Writes1(c) && (C.SplitsAny([c]) <==> C.Splits1(c)) && C.GatesAll([c]) == C.Gates1(c)
  {
    hide C.Bits1, C.Phases1, C.Writes1, C.Splits1, C.Gates1;
    assert [c][..0] == [];
    assert C.PhasesAll([c], b) == C.Phases1(c, b);
  }

  lemma SumOne(a: Angle)
    ensures Sum([a]) == a && Sum([]) == 0
  {
    assert [a][..0] == [];
  }

  lemma NamedPhase(ctl: Control, g: C.Gate, angle: Angle, b: Bits)
    requires ValidControl(ctl) && C.GatePhases(g, b) == [angle] && C.GateBits(g, b) == b && C.GateWrites(g) == {}
    ensures var s := [MakeControlled(ctl, g)];
      && C.BitsAll(s, b) == b && Arg(s, b) == (if Holds(ctl, b) then angle else 0)
      && C.WritesAll(s) == {} && !C.SplitsAny(s) && C.GatesAll(s) == 1
  {
    OneGateMeans(MakeControlled(ctl, g), b);
    MadeMeans(ctl, g, b);
    SumOne(angle);
  }

  /** An emitted phase is off by at most half a unit, and not at all if it is on the grid; it changes nothing else. */
  lemma PhaseMeans(ctl: Control, a: Angle, prec: nat, fine: bool, b: Bits)
    requires ValidControl(ctl) && (fine ==> OnGrid(a, prec))
    ensures var s := PhaseCode(ctl, a, prec);
      && C.BitsAll(s, b) == b
      && Circ(Arg(s, b) - (if Holds(ctl, b) then a else 0)) <= HalfUnitOf(prec, fine)
      && C.WritesAll(s) == {} && !C.SplitsAny(s) && C.GatesAll(s) == |s|
  {
    hide Circ, Round;
    RoundNearOf(a, prec, fine);
    CircBelow(0);
    var r := Round(a, prec);
    CircNeg(r - a);
    var g := if r == PI_1_4 then C.Pt else if r == PI_1_2 then C.Ps else if r == PI_3_4 then C.Pt3
             else if r == PI then C.Pz else if r == PI_5_4 then C.Pt5 else if r == PI_3_2 then C.Psdg
             else if r == PI_7_4 then C.Ptdg else C.P(a);
    if r != 0 {
      NamedPhase(ctl, g, if g == C.P(a) then a else r, b);
    } else {
      SumOne(0);
    }
  }

  // Where the code writes

  function OpWrites(o: CtlOp): set<Qubit> {
    match o.op
    case Gphase(_) => {}
    case X(q) => {q}
    case Swap(q1, q2) => {q1, q2}
  }

  /** The qubits that the operations may change. */
  function WritesOf(ops: OpSeq): set<Qubit> {
    if ops == [] then {} else WritesOf(ops[..|ops| - 1]) + OpWrites(ops[|ops| - 1])
  }

  lemma WritesOfSnoc(ops: OpSeq, o: CtlOp)
    ensures WritesOf(ops + [o]) == WritesOf(ops) + OpWrites(o)
  {
    assert (ops + [o])[..|ops|] == ops;
  }

  lemma {:induction false} WritesOfConcat(s: OpSeq, t: OpSeq)
    ensures WritesOf(s + t) == WritesOf(s) + WritesOf(t)
    decreases |t|
  {
    if t == [] {
      assert s + t == s;
    } else {
      var n := |t| - 1;
      WritesOfConcat(s, t[..n]);
      assert (s + t)[..|s + t| - 1] == s + t[..n];
    }
  }

  lemma WritesOfOne(o: CtlOp)
    ensures WritesOf([o]) == OpWrites(o)
  {
    assert [o][..0] == [];
  }

  lemma GateWritesAll(ctl: Control, g: C.Gate)
    requires ValidControl(ctl)
    ensures C.WritesAll([MakeControlled(ctl, g)]) == C.GateWrites(g)
  {
    OneGateMeans(MakeControlled(ctl, g), {});
    MadeMeans(ctl, g, {});
  }

  lemma PhaseWrites(ctl: Control, a: Angle, prec: nat)
    requires ValidControl(ctl)
    ensures C.WritesAll(PhaseCode(ctl, a, prec)) == {}
  {
    PhaseMeans(ctl, a, prec, false, {});
  }

  /** The code writes, and leaves toggled, nothing but incoming toggles and what the operations write. */
  ghost predicate Stays(code: seq<C.Compiled>, out: set<Qubit>, ops: OpSeq, inc: set<Qubit>) {
    C.WritesAll(code) <= inc + WritesOf(ops) && out <= inc + WritesOf(ops)
  }

  lemma StaysConcat(r: seq<C.Compiled>, t: set<Qubit>, ops: OpSeq, inc: set<Qubit>, s: seq<C.Compiled>, t': set<Qubit>, more: OpSeq)
    requires Stays(r, t, ops, inc) && Stays(s, t', more, t)
    ensures Stays(r + s, t', ops + more, inc)
  {
    CountsConcat(r, s);
    WritesOfConcat(ops, more);
  }

  /** What the compiled code does to the order and the bits of the elements. */
  class Stat {
    var ops: nat
    var shuffle: bool
    var modified: set<Qubit>

    constructor ()
      ensures ops == 0 && !shuffle && modified == {}
    {
      ops, shuffle, modified := 0, false, {};
    }

    method Write(q: Qubit)
      modifies this`modified
      ensures modified == old(modified) + {q}
    {
      modified := modified + {q};
    }

    /** The statistics have been kept for code `s` emitted since they were ops0, shuffle0, modified0. */
    ghost predicate Counts(s: seq<C.Compiled>, ops0: nat, shuffle0: bool, modified0: set<Qubit>)
      reads this
    {
      && ops == ops0 + C.GatesAll(s)
      && (shuffle <==> shuffle0 || C.SplitsAny(s))
      && modified == modified0 + C.WritesAll(s)
    }
  }

  method PushPhase(st: Stat, ops: seq<C.Compiled>, ctl: Control, a: Angle, prec: nat) returns (r: seq<C.Compiled>)
    requires ValidControl(ctl)
    modifies st
    ensures r == ops + PhaseCode(ctl, a, prec)
    ensures st.Counts(PhaseCode(ctl, a, prec), old(st.ops), old(st.shuffle), old(st.modified))
  {
    PhaseMeans(ctl, a, prec, false, {});
    r := ops + PhaseCode(ctl, a, prec);
    if Round(a, prec) == 0 {
      return;
    }
    st.ops := st.ops + 1;
  }

  method PushToggleOne(st: Stat, ops: seq<C.Compiled>, ctl: Control, q: Qubit) returns (r: seq<C.Compiled>)
    requires ValidControl(ctl)
    modifies st
    ensures r == ops + [MakeControlled(ctl, C.X(q))]
    ensures st.Counts([MakeControlled(ctl, C.X(q))], old(st.ops), old(st.shuffle), old(st.modified))
  {
    OneGateMeans(MakeControlled(ctl, C.X(q)), {});
    MadeMeans(ctl, C.X(q), {});
    st.ops := st.ops + 1;
    st.Write(q);
    r := ops + [MakeControlled(ctl, C.X(q))];
  }

  method PushSwap(st: Stat, ops: seq<C.Compiled>, ctl: Control, q1: Qubit, q2: Qubit) returns (r: seq<C.Compiled>)
    requires ValidControl(ctl)
    modifies st
    ensures r == ops + [MakeControlled(ctl, C.Swap(q1, q2))]
    ensures st.Counts([MakeControlled(ctl, C.Swap(q1, q2))], old(st.ops), old(st.shuffle), old(st.modified))
  {
    OneGateMeans(MakeControlled(ctl, C.Swap(q1, q2)), {});
    MadeMeans(ctl, C.Swap(q1, q2), {});
    st.ops := st.ops + 1;
    st.Write(q1);
    st.Write(q2);
    r := ops + [MakeControlled(ctl, C.Swap(q1, q2))];
  }

  /** The code flips exactly the qubits `qs`, without a phase. */
  ghost predicate Toggles(s: seq<C.Compiled>, qs: set<Qubit>) {
    forall b: Bits :: C.BitsAll(s, b) == Flip(b, qs) && Arg(s, b) == 0
  }

  lemma CountsConcat(s: seq<C.Compiled>, t: seq<C.Compiled>)
    ensures C.GatesAll(s + t) == C.GatesAll(s) + C.GatesAll(t)
    ensures C.SplitsAny(s + t) <==> C.SplitsAny(s) || C.SplitsAny(t)
    ensures C.WritesAll(s + t) == C.WritesAll(s) + C.WritesAll(t)
    decreases |t|
  {
    if t == [] {
      assert s + t == s;
    } else {
      var u, c := t[..|t| - 1], t[|t| - 1];
      assert s + t == (s + u) + [c] && t == u + [c];
      CountsConcat(s, u);
      C.AllSnoc(s + u, c);
      C.AllSnoc(u, c);
    }
  }

  lemma ToggleMeans(s: seq<C.Compiled>, done: set<Qubit>, q: Qubit)
    requires Toggles(s, done) && q !in done
    ensures Toggles(s + [MakeControlled([], C.X(q))], done + {q})
  {
    forall b: Bits ensures C.BitsAll(s + [MakeControlled([], C.X(q))], b) == Flip(b, done + {q})
                   ensures Arg(s + [MakeControlled([], C.X(q))], b) == 0 {
      SnocMeans(s, MakeControlled([], C.X(q)), b);
      assert C.BitsAll(s, b) == Flip(b, done);
      assert Flip(Flip(b, done), {q}) == Flip(b, done + {q});
    }
  }

  /** Flip a set of qubits unconditionally: one wide gate, or one X each (in any order).
      `words` is the number of 64-bit words in a basis string. */
  method PushToggleMany(st: Stat, ops: seq<C.Compiled>, toToggle: set<Qubit>, words: nat)
    returns (r: seq<C.Compiled>, ghost s: seq<C.Compiled>)
    modifies st
    ensures r == ops + s && Toggles(s, toToggle) && C.WritesAll(s) <= toToggle
    ensures toToggle == {} <==> s == []
    ensures st.Counts(s, old(st.ops), old(st.shuffle), old(st.modified))
  {
    r, s := ops, [];
    if |toToggle| == 0 {
      return;
    }
    if |toToggle| >= words {
      st.ops := st.ops + 1;
      st.modified := st.modified + toToggle;
      var c := MakeControlled([], C.MultiX(toToggle));
      s := [c];
      forall b: Bits ensures C.BitsAll(s, b) == Flip(b, toToggle) && Arg(s, b) == 0 {
        OneGateMeans(c, b);
      }
      OneGateMeans(c, {});
      return ops + [c], s;
    }
    r, s := PushEach(st, ops, toToggle);
  }

  lemma NothingToggled()
    ensures Toggles([], {})
  {
  }

  method PushEach(st: Stat, ops: seq<C.Compiled>, toToggle: set<Qubit>)
    returns (r: seq<C.Compiled>, ghost s: seq<C.Compiled>)
    modifies st
    ensures r == ops + s && Toggles(s, toToggle) && C.WritesAll(s) <= toToggle
    ensures toToggle == {} <==> s == []
    ensures st.Counts(s, old(st.ops), old(st.shuffle), old(st.modified))
  {
    r, s := ops, [];
    NothingCounted();
    hide C.WritesAll, C.SplitsAny, C.GatesAll, C.BitsAll, Arg, Toggles;
    NothingToggled();
    var rest := toToggle;
    assert toToggle - rest == {};
    while rest != {}
      invariant rest <= toToggle
      invariant r == ops + s && Toggles(s, toToggle - rest) && C.WritesAll(s) <= toToggle
      invariant rest == toToggle <==> s == []
      invariant st.Counts(s, old(st.ops), old(st.shuffle), old(st.modified))
    {
      var q :| q in rest;
      r := PushToggleOne(st, r, [], q);
      ToggleMeans(s, toToggle - rest, q);
      assert toToggle - rest + {q} == toToggle - (rest - {q});
      CountsConcat(s, [MakeControlled([], C.X(q))]);
      GateWritesAll([], C.X(q));
      s := s + [MakeControlled([], C.X(q))];
      rest := rest - {q};
    }
    assert toToggle - rest == toToggle;
  }

  // Choosing and splitting on a shared control

  function PrefixScore(q: Qubit, ops: OpSeq, k: nat): int
    requires k <= |ops|
  {
    if k == 0 then 2 else PrefixScore(q, ops, k - 1) + if Uses(ops[k - 1].ctl, q) then 2 else -1
  }

  /** The scan gets as far as the first `k` operations. */
  predicate Reached(q: Qubit, ops: OpSeq, k: nat) {
    k <= |ops| && Spares(ops[..k], q) && forall j :: 1 <= j < k ==> PrefixScore(q, ops, j) > THRES_PART_FAIL
  }

  /** The best score of a prefix that does not write `q`, and the shortest prefix with that score. */
  ghost predicate IsBest(q: Qubit, ops: OpSeq, score: int, len: nat) {
    && len <= |ops|
    && (len == 0 ==> score == 0)
    && (len > 0 ==> Reached(q, ops, len) && score == PrefixScore(q, ops, len) > 0)
    && forall k :: 1 <= k <= |ops| && Reached(q, ops, k) ==>
         PrefixScore(q, ops, k) <= score && (k < len ==> PrefixScore(q, ops, k) < score)
  }

  method EvalControl(q: Qubit, ops: OpSeq) returns (bestScore: int, bestLen: nat)
    ensures IsBest(q, ops, bestScore, bestLen)
  {
    bestScore, bestLen := 0, 0;
    var curScore := 2;
    var i := 0;
    while i < |ops|
      invariant i <= |ops| && bestLen <= i
      invariant Reached(q, ops, i) && curScore == PrefixScore(q, ops, i)
      invariant i > 0 ==> curScore > THRES_PART_FAIL
      invariant if bestLen == 0 then bestScore == 0
                else Reached(q, ops, bestLen) && bestScore == PrefixScore(q, ops, bestLen) > 0
      invariant forall k :: 1 <= k <= i ==>
        PrefixScore(q, ops, k) <= bestScore && (k < bestLen ==> PrefixScore(q, ops, k) < bestScore)
    {
      if ops[i].op.Writes(q) {
        assert forall k :: i < k <= |ops| ==> !Reached(q, ops, k) by {
          forall k | i < k <= |ops| ensures !Spares(ops[..k], q) { assert ops[..k][i].op.Writes(q); }
        }
        return;
      }
      curScore := curScore + if Uses(ops[i].ctl, q) then 2 else -1;
      i := i + 1;
      assert ops[..i] == ops[..i - 1] + [ops[i - 1]];
      if curScore > bestScore {
        bestScore, bestLen := curScore, i;
      }
      if curScore <= THRES_PART_FAIL {
        assert forall k :: i < k <= |ops| ==> !Reached(q, ops, k);
        return;
      }
    }
  }

  /** The control qubit with the best score, the first one on a tie; length 0 if none scores. */
  method SelectControl(qs: seq<Qubit>, ops: OpSeq) returns (q: Qubit, len: nat, ghost score: int)
    ensures if len == 0 then score == 0 else q in qs && IsBest(q, ops, score, len)
    ensures forall j, s, l :: 0 <= j < |qs| && IsBest(qs[j], ops, s, l) ==> s <= score
  {
    var bestScore := 0;
    q, len := 0, 0;
    for i := 0 to |qs|
      invariant if len == 0 then bestScore == 0 else q in qs && IsBest(q, ops, bestScore, len)
      invariant forall j, s, l :: 0 <= j < i && IsBest(qs[j], ops, s, l) ==> s <= bestScore
    {
      var score, l := EvalControl(qs[i], ops);
      forall s, l' | IsBest(qs[i], ops, s, l') ensures s == score {
        BestIsUnique(qs[i], ops, score, l, s, l');
      }
      if score > bestScore {
        bestScore := score;
        q, len := qs[i], l;
      }
    }
    score := bestScore;
  }

  lemma BestIsUnique(q: Qubit, ops: OpSeq, s: int, l: nat, s': int, l': nat)
    requires IsBest(q, ops, s, l) && IsBest(q, ops, s', l')
    ensures s == s' && l == l'
  {
  }

  datatype Split = Split(q: Qubit, len: nat, if0: OpSeq, if1: OpSeq)

  /** Two sequences do the same to one basis state. */
  ghost predicate SameRun(s: OpSeq, t: OpSeq, b: Bits) {
    Run(s, b) == Run(t, b) && RunArg(s, b) == RunArg(t, b)
  }

  /** The branch for `q` = `v` does what `done` does wherever `q` = `v`, for less weight. */
  ghost predicate IsBranch(branch: OpSeq, done: OpSeq, q: Qubit, v: bool) {
    && AllValid(branch)
    && CtlItems(branch) < CtlItems(done)
    && Weight(branch) + 1 <= Weight(done)
    && WritesOf(branch) <= WritesOf(done)
    && (forall prec :: AllOnGrid(done, prec) ==> AllOnGrid(branch, prec))
    && forall b: Bits {:trigger SameRun(branch, done, b)} :: (q in b) == v ==> SameRun(branch, done, b)
  }

  lemma BranchKeeps(branch: OpSeq, done: OpSeq, q: Qubit, v: bool, o: CtlOp, rest: CtlOp)
    requires IsBranch(branch, done, q, v) && Spares(done, q) && Valid(rest)
    requires |rest.ctl| <= |o.ctl| && rest.op == o.op
    requires forall b: Bits :: (q in b) == v ==> OpBits(rest, b) == OpBits(o, b) && OpArg(rest, b) == OpArg(o, b)
    ensures IsBranch(branch + [rest], done + [o], q, v)
  {
    CtlItemsSnoc(branch, rest);
    CtlItemsSnoc(done, o);
    WritesOfSnoc(branch, rest);
    WritesOfSnoc(done, o);
    var s, t := branch + [rest], done + [o];
    forall prec | AllOnGrid(t, prec) ensures AllOnGrid(s, prec) {
      GridSnoc(done, o, prec);
      GridSnoc(branch, rest, prec);
    }
    forall b: Bits | (q in b) == v ensures SameRun(s, t, b) {
      assert SameRun(branch, done, b);
      RunSnoc(branch, rest, b);
      RunSnoc(done, o, b);
      SparedBitKept(done, q, b);
    }
  }

  lemma BranchSkips(branch: OpSeq, done: OpSeq, q: Qubit, v: bool, o: CtlOp)
    requires IsBranch(branch, done, q, v) && Spares(done, q)
    requires forall b: Bits :: (q in b) == v ==> OpBits(o, b) == b && OpArg(o, b) == 0
    ensures IsBranch(branch, done + [o], q, v)
  {
    CtlItemsSnoc(done, o);
    WritesOfSnoc(done, o);
    var t := done + [o];
    forall prec | AllOnGrid(t, prec) ensures AllOnGrid(branch, prec) {
      GridSnoc(done, o, prec);
    }
    forall b: Bits | (q in b) == v ensures SameRun(branch, t, b) {
      assert SameRun(branch, done, b);
      RunSnoc(done, o, b);
      SparedBitKept(done, q, b);
    }
  }

  lemma FirstBranch(o: CtlOp, rest: Control, q: Qubit, v: bool)
    requires Valid(o) && Uses(o.ctl, q)
    requires ValidControl(rest) && |rest| == |o.ctl| - 1 && forall p :: Uses(rest, p) ==> Uses(o.ctl, p)
    requires forall b: Bits :: Holds(o.ctl, b) <==> ((q in b) == v) && Holds(rest, b)
    ensures IsBranch([CtlOp(rest, o.op)], [o], q, v) && IsBranch([], [o], q, !v)
  {
    var r := CtlOp(rest, o.op);
    RunOne(r, {});
    RunOne(o, {});
    WritesOfOne(r);
    WritesOfOne(o);
    var s, t, e: OpSeq := [r], [o], [];
    forall b: Bits ensures (q in b) == v ==> SameRun(s, t, b)
                   ensures (q in b) != v ==> SameRun(e, t, b) {
      RunOne(r, b);
      RunOne(o, b);
    }
  }

  /** Split `op0` and the operations after it on a control qubit that they share and do not write. */
  method TryPartition(op0: CtlOp, pending: OpSeq) returns (res: Option<Split>)
    requires Valid(op0) && AllValid(pending)
    ensures res.Some? ==>
      var Split(q, len, if0, if1) := res.value;
      && THRES_PART_DO <= len <= |pending|
      && IsBranch(if0, [op0] + pending[..len], q, false)
      && IsBranch(if1, [op0] + pending[..len], q, true)
  {
    hide IsBranch;
    if |pending| == 0 {
      return None;
    }
    var q, len, _ := SelectControl(seq(|op0.ctl|, i requires 0 <= i < |op0.ctl| => op0.ctl[i].qubit), pending);
    if len < THRES_PART_DO {
      return None;
    }
    var if0: OpSeq, if1: OpSeq := [], [];
    assert Uses(op0.ctl, q);
    var r := WithoutQubit(op0.ctl, q);
    FirstBranch(op0, r.value.1, q, r.value.0);
    if r.value.0 {
      if1 := [CtlOp(r.value.1, op0.op)];
    } else {
      if0 := [CtlOp(r.value.1, op0.op)];
    }
    ghost var done := [op0];
    for i := 0 to len
      invariant done == [op0] + pending[..i] && Spares(done, q)
      invariant IsBranch(if0, done, q, false) && IsBranch(if1, done, q, true)
    {
      var o := pending[i];
      assert !o.op.Writes(q) by { assert pending[..len][i] == o; }
      var r := WithoutQubit(o.ctl, q);
      if r.None? {
        BranchKeeps(if0, done, q, false, o, o);
        BranchKeeps(if1, done, q, true, o, o);
        if0 := if0 + [o];
        if1 := if1 + [o];
      } else {
        var rest := CtlOp(r.value.1, o.op);
        if r.value.0 {
          BranchSkips(if0, done, q, false, o);
          BranchKeeps(if1, done, q, true, o, rest);
          if1 := if1 + [rest];
        } else {
          BranchKeeps(if0, done, q, false, o, rest);
          BranchSkips(if1, done, q, true, o);
          if0 := if0 + [rest];
        }
      }
      done := done + [o];
    }
    return Some(Split(q, len, if0, if1));
  }

  // One step of compilation

  /** Code without a phase of its own that simulates one operation. */
  lemma OpSimulated(code: seq<C.Compiled>, out: set<Qubit>, phase: int, o: CtlOp, inc: set<Qubit>, err: int)
    requires forall b: Bits :: Flip(C.BitsAll(code, b), out) == OpBits(o, Flip(b, inc))
    requires forall b: Bits :: Near(Arg(code, b) + phase, OpArg(o, Flip(b, inc)), err)
    ensures Simulates(code, out, phase, [o], inc, err)
  {
    var ops := [o];
    forall b: Bits ensures SimulatesAt(code, out, phase, ops, inc, err, b) {
      RunOne(o, Flip(b, inc));
    }
  }

  lemma AlwaysPhase(o: CtlOp, t: set<Qubit>)
    requires o.ctl == [] && o.op.Gphase?
    ensures Simulates([], t, o.op.a, [o], t, 0)
  {
    forall b: Bits ensures Near(Arg([], b) + o.op.a, OpArg(o, Flip(b, t)), 0) {
      NearRefl(o.op.a);
    }
    OpSimulated([], t, o.op.a, o, t, 0);
  }

  lemma AlwaysX(o: CtlOp, t: set<Qubit>)
    requires o.ctl == [] && o.op.X?
    ensures Simulates([], Flip(t, {o.op.q}), 0, [o], t, 0)
  {
    var out := Flip(t, {o.op.q});
    forall b: Bits ensures Flip(C.BitsAll([], b), out) == OpBits(o, Flip(b, t)) {
      assert Flip(b, out) == Flip(Flip(b, t), {o.op.q});
    }
    forall b: Bits ensures Near(Arg([], b) + 0, OpArg(o, Flip(b, t)), 0) {
      NearRefl(0);
    }
    OpSimulated([], out, 0, o, t, 0);
  }

  /** A swap exchanges the toggles of its qubits, if it is unconditional. */
  function SwapToggles(t: set<Qubit>, q1: Qubit, q2: Qubit): set<Qubit> {
    if (q1 in t) != (q2 in t) then Flip(t, {q1, q2}) else t
  }

  lemma OneGateSimulates(ctl: Control, g: C.Gate, out: set<Qubit>, o: CtlOp, inc: set<Qubit>)
    requires ValidControl(ctl) && !o.op.Gphase?
    requires forall b: Bits :: C.GatePhases(g, b) == []
    requires forall b: Bits :: Flip(if Holds(ctl, b) then C.GateBits(g, b) else b, out) == OpBits(o, Flip(b, inc))
    ensures Simulates([MakeControlled(ctl, g)], out, 0, [o], inc, 0)
  {
    var code := [MakeControlled(ctl, g)];
    forall b: Bits ensures Flip(C.BitsAll(code, b), out) == OpBits(o, Flip(b, inc)) {
      OneGateMeans(MakeControlled(ctl, g), b);
      MadeMeans(ctl, g, b);
    }
    forall b: Bits ensures Near(Arg(code, b) + 0, OpArg(o, Flip(b, inc)), 0) {
      OneGateMeans(MakeControlled(ctl, g), b);
      MadeMeans(ctl, g, b);
      NearRefl(0);
    }
    OpSimulated(code, out, 0, o, inc, 0);
  }

  lemma AlwaysSwap(o: CtlOp, t: set<Qubit>)
    requires Valid(o) && o.ctl == [] && o.op.Swap?
    ensures Simulates([MakeControlled([], C.Swap(o.op.q1, o.op.q2))], SwapToggles(t, o.op.q1, o.op.q2), 0, [o], t, 0)
  {
    var q1, q2 := o.op.q1, o.op.q2;
    var out := SwapToggles(t, q1, q2);
    forall b: Bits ensures Flip(C.GateBits(C.Swap(q1, q2), b), out) == OpBits(o, Flip(b, t)) {
    }
    OneGateSimulates([], C.Swap(q1, q2), out, o, t);
  }

  lemma CtlX(o: CtlOp, ctl: Control, t: set<Qubit>)
    requires ValidControl(ctl) && o.op.X?
    requires forall b: Bits :: Holds(ctl, b) <==> Holds(o.ctl, Flip(b, t))
    ensures Simulates([MakeControlled(ctl, C.X(o.op.q))], t, 0, [o], t, 0)
  {
    var g := C.X(o.op.q);
    forall b: Bits ensures Flip(if Holds(ctl, b) then C.GateBits(g, b) else b, t) == OpBits(o, Flip(b, t)) {
      assert Flip(Flip(b, {o.op.q}), t) == Flip(Flip(b, t), {o.op.q});
    }
    OneGateSimulates(ctl, g, t, o, t);
  }

  /** A controlled swap of two qubits that agree on being toggled. */
  lemma CtlSwapEven(o: CtlOp, ctl: Control, t: set<Qubit>)
    requires ValidControl(ctl) && Valid(o) && o.op.Swap? && (o.op.q1 in t) == (o.op.q2 in t)
    requires forall b: Bits :: Holds(ctl, b) <==> Holds(o.ctl, Flip(b, t))
    ensures Simulates([MakeControlled(ctl, C.Swap(o.op.q1, o.op.q2))], t, 0, [o], t, 0)
  {
    var g := C.Swap(o.op.q1, o.op.q2);
    forall b: Bits ensures Flip(if Holds(ctl, b) then C.GateBits(g, b) else b, t) == OpBits(o, Flip(b, t)) {
    }
    OneGateSimulates(ctl, g, t, o, t);
  }

  /** Emitting one pending X changes nothing. */
  lemma ReleaseToggle(t: set<Qubit>, q: Qubit)
    requires q in t
    ensures Simulates([MakeControlled([], C.X(q))], t - {q}, 0, [], t, 0)
  {
    var code, e: OpSeq := [MakeControlled([], C.X(q))], [];
    forall b: Bits ensures SimulatesAt(code, t - {q}, 0, e, t, 0, b) {
      OneGateMeans(MakeControlled([], C.X(q)), b);
      MadeMeans([], C.X(q), b);
      NearRefl(0);
      assert Flip(Flip(b, {q}), t - {q}) == Flip(b, t);
    }
  }

  lemma CtlPhaseStep(o: CtlOp, ctl: Control, t: set<Qubit>, prec: nat, fine: bool)
    requires ValidControl(ctl) && o.op.Gphase? && (fine ==> OnGrid(o.op.a, prec))
    requires forall b: Bits :: Holds(ctl, b) <==> Holds(o.ctl, Flip(b, t))
    ensures Simulates(PhaseCode(ctl, o.op.a, prec), t, 0, [o], t, HalfUnitOf(prec, fine))
  {
    hide PhaseCode, Holds;
    var code, ops, err := PhaseCode(ctl, o.op.a, prec), [o], HalfUnitOf(prec, fine);
    forall b: Bits ensures SimulatesAt(code, t, 0, ops, t, err, b) {
      hide Circ;
      PhaseMeans(ctl, o.op.a, prec, fine, b);
      RunOne(o, Flip(b, t));
      assert Holds(ctl, b) <==> Holds(o.ctl, Flip(b, t));
    }
  }

  lemma SimulatesWeaken(code: seq<C.Compiled>, out: set<Qubit>, phase: int, ops: OpSeq, inc: set<Qubit>, e: int, f: int)
    requires Simulates(code, out, phase, ops, inc, e) && e <= f
    ensures Simulates(code, out, phase, ops, inc, f)
  {
    forall b: Bits ensures SimulatesAt(code, out, phase, ops, inc, f, b) {
      assert SimulatesAt(code, out, phase, ops, inc, e, b);
    }
  }

  lemma Scale(u: nat, v: nat, w: nat)
    requires v <= w
    ensures u * v <= u * w
  {
  }

  /** Compile one operation that does not start a split. */
  method CompileOne(st: Stat, r: seq<C.Compiled>, toggled: set<Qubit>, gphase: Angle, o: CtlOp, prec: nat, ghost fine: bool)
    returns (r': seq<C.Compiled>, toggled': set<Qubit>, gphase': Angle, ghost s: seq<C.Compiled>, ghost d: int)
    requires Valid(o) && (fine ==> OnGrid(gphase, prec) && AllOnGrid([o], prec))
    modifies st
    ensures r' == r + s && Near(gphase', gphase + d, 0)
    ensures Simulates(s, toggled', d, [o], toggled, UnitOf(prec, fine) * Weight([o])) && Stays(s, toggled', [o], toggled)
    ensures fine ==> OnGrid(gphase', prec)
    ensures st.Counts(s, old(st.ops), old(st.shuffle), old(st.modified))
  {
    hide Near, Simulates, Stays;
    if o.ctl == [] {
      r', toggled', gphase', s, d := CompileFree(st, r, toggled, gphase, o, prec, fine);
      SimulatesWeaken(s, toggled', d, [o], toggled, 0, UnitOf(prec, fine) * Weight([o]));
    } else {
      r', toggled', s := CompileControlled(st, r, toggled, o, prec, fine);
      gphase', d := gphase, 0;
      NearRefl(gphase);
    }
  }

  /** Without a control an operation only changes the phase or the toggles, but for a swap. */
  method CompileFree(st: Stat, r: seq<C.Compiled>, toggled: set<Qubit>, gphase: Angle, o: CtlOp,
                     ghost prec: nat, ghost fine: bool)
    returns (r': seq<C.Compiled>, toggled': set<Qubit>, gphase': Angle, ghost s: seq<C.Compiled>, ghost d: int)
    requires Valid(o) && o.ctl == [] && (fine ==> OnGrid(gphase, prec) && AllOnGrid([o], prec))
    modifies st
    ensures r' == r + s && Near(gphase', gphase + d, 0)
    ensures Simulates(s, toggled', d, [o], toggled, 0) && Stays(s, toggled', [o], toggled)
    ensures fine ==> OnGrid(gphase', prec)
    ensures st.Counts(s, old(st.ops), old(st.shuffle), old(st.modified))
  {
    hide Near, Simulates;
    WritesOfOne(o);
    NothingCounted();
    r', toggled', gphase', s, d := r, toggled, gphase, [], 0;
    NearRefl(gphase);
    match o.op {
      case Gphase(a) =>
        gphase' := Wrap(gphase + a);
        d := a;
        NearWrap(gphase + a);
        if fine {
          assert [o][0] == o;
          GridSum(gphase, a, prec);
        }
        AlwaysPhase(o, toggled);
      case X(q) =>
        toggled' := if q in toggled then toggled - {q} else toggled + {q};
        assert toggled' == Flip(toggled, {q});
        AlwaysX(o, toggled);
      case Swap(q1, q2) =>
        if q1 in toggled && q2 !in toggled {
          toggled' := toggled - {q1} + {q2};
        } else if q2 in toggled && q1 !in toggled {
          toggled' := toggled - {q2} + {q1};
        }
        assert toggled' == SwapToggles(toggled, q1, q2);
        r' := PushSwap(st, r, [], q1, q2);
        s := [MakeControlled([], C.Swap(q1, q2))];
        AlwaysSwap(o, toggled);
        GateWritesAll([], C.Swap(q1, q2));
    }
  }

  /** A controlled operation is emitted under its control with the toggled items inverted. */
  method CompileControlled(st: Stat, r: seq<C.Compiled>, toggled: set<Qubit>, o: CtlOp, prec: nat, ghost fine: bool)
    returns (r': seq<C.Compiled>, toggled': set<Qubit>, ghost s: seq<C.Compiled>)
    requires Valid(o) && (fine ==> AllOnGrid([o], prec))
    modifies st
    ensures r' == r + s
    ensures Simulates(s, toggled', 0, [o], toggled, UnitOf(prec, fine) * Weight([o])) && Stays(s, toggled', [o], toggled)
    ensures st.Counts(s, old(st.ops), old(st.shuffle), old(st.modified))
  {
    hide Simulates, Stays, PhaseCode, MakeControlled, Weight, UnitOf, OnGrid;
    assert [o][0] == o;
    toggled' := toggled;
    var ctl := ToggleIf(o.ctl, toggled);
    match o.op {
      case Gphase(a) =>
        r' := PushPhase(st, r, ctl, a, prec);
        s := PhaseCode(ctl, a, prec);
        PhaseEmitted(o, ctl, toggled, prec, fine);
      case X(q) =>
        r' := PushToggleOne(st, r, ctl, q);
        s := [MakeControlled(ctl, C.X(q))];
        XEmitted(o, ctl, toggled, UnitOf(prec, fine));
      case Swap(q1, q2) =>
        r', toggled', s := CompileSwap(st, r, toggled, ctl, o);
        SimulatesWeaken(s, toggled', 0, [o], toggled, 0, UnitOf(prec, fine) * Weight([o]));
    }
  }

  lemma PhaseEmitted(o: CtlOp, ctl: Control, t: set<Qubit>, prec: nat, fine: bool)
    requires ValidControl(ctl) && o.op.Gphase? && (fine ==> OnGrid(o.op.a, prec))
    requires forall b: Bits :: Holds(ctl, b) <==> Holds(o.ctl, Flip(b, t))
    ensures var s := PhaseCode(ctl, o.op.a, prec);
      Simulates(s, t, 0, [o], t, UnitOf(prec, fine) * Weight([o])) && Stays(s, t, [o], t)
  {
    hide Simulates;
    CtlPhaseStep(o, ctl, t, prec, fine);
    PhaseWrites(ctl, o.op.a, prec);
    hide PhaseCode;
    RunOne(o, {});
    Scale(UnitOf(prec, fine), 1, Weight([o]));
    SimulatesWeaken(PhaseCode(ctl, o.op.a, prec), t, 0, [o], t, HalfUnitOf(prec, fine), UnitOf(prec, fine) * Weight([o]));
  }

  lemma XEmitted(o: CtlOp, ctl: Control, t: set<Qubit>, u: nat)
    requires ValidControl(ctl) && o.op.X?
    requires forall b: Bits :: Holds(ctl, b) <==> Holds(o.ctl, Flip(b, t))
    ensures var s := [MakeControlled(ctl, C.X(o.op.q))];
      Simulates(s, t, 0, [o], t, u * Weight([o])) && Stays(s, t, [o], t)
  {
    hide Simulates;
    CtlX(o, ctl, t);
    GateWritesAll(ctl, C.X(o.op.q));
    hide MakeControlled;
    WritesOfOne(o);
    SimulatesWeaken([MakeControlled(ctl, C.X(o.op.q))], t, 0, [o], t, 0, u * Weight([o]));
  }

  /** A controlled swap: where only one of its qubits is toggled, that toggle is emitted first. */
  method CompileSwap(st: Stat, r: seq<C.Compiled>, toggled: set<Qubit>, ctl: Control, o: CtlOp)
    returns (r': seq<C.Compiled>, toggled': set<Qubit>, ghost s: seq<C.Compiled>)
    requires Valid(o) && o.op.Swap? && ValidControl(ctl)
    requires forall b: Bits :: Holds(ctl, b) <==> Holds(o.ctl, Flip(b, toggled))
    modifies st
    ensures r' == r + s
    ensures Simulates(s, toggled', 0, [o], toggled, 0) && Stays(s, toggled', [o], toggled)
    ensures st.Counts(s, old(st.ops), old(st.shuffle), old(st.modified))
  {
    hide Near, Simulates;
    WritesOfOne(o);
    NothingCounted();
    var q1, q2 := o.op.q1, o.op.q2;
    r', toggled', s := r, toggled, [];
    var has1, has2 := q1 in toggled, q2 in toggled;
    if has1 != has2 {
      var q := if has1 then q1 else q2;
      toggled' := toggled - {q};
      r' := PushToggleOne(st, r, [], q);
      s := [MakeControlled([], C.X(q))];
      ReleaseToggle(toggled, q);
      GateWritesAll([], C.X(q));
    }
    ghost var s1, g := s, [MakeControlled(ctl, C.Swap(q1, q2))];
    r' := PushSwap(st, r', ctl, q1, q2);
    CtlSwapRelease(o, ctl, toggled, toggled', s1);
    CountsConcat(s1, g);
    GateWritesAll(ctl, C.Swap(q1, q2));
    hide C.WritesAll, C.SplitsAny, C.GatesAll;
    s := s1 + g;
  }

  /** A controlled swap after the odd toggle among its qubits, if any, has been emitted. */
  lemma CtlSwapRelease(o: CtlOp, ctl: Control, t: set<Qubit>, t': set<Qubit>, s: seq<C.Compiled>)
    requires ValidControl(ctl) && Valid(o) && o.op.Swap?
    requires forall b: Bits :: Holds(ctl, b) <==> Holds(o.ctl, Flip(b, t))
    requires var q1, q2 := o.op.q1, o.op.q2;
      if (q1 in t) == (q2 in t) then t' == t && s == []
      else t' == t - {if q1 in t then q1 else q2} && Simulates(s, t', 0, [], t, 0)
    ensures Simulates(s + [MakeControlled(ctl, C.Swap(o.op.q1, o.op.q2))], t', 0, [o], t, 0)
  {
    var g := [MakeControlled(ctl, C.Swap(o.op.q1, o.op.q2))];
    forall b: Bits ensures Holds(ctl, b) <==> Holds(o.ctl, Flip(b, t')) {
      if t' != t {
        var q := if o.op.q1 in t then o.op.q1 else o.op.q2;
        assert !Uses(o.ctl, q);
        assert forall p :: p != q ==> (p in Flip(b, t') <==> p in Flip(b, t));
      }
    }
    CtlSwapEven(o, ctl, t');
    if t' == t {
      assert s + g == g;
    } else {
      NearRefl(0);
      SimulatesConcat(s, t', 0, [], t, 0, g, t', 0, [o], 0, 0);
      assert [] + [o] == [o];
    }
  }

  // Reconciling two branches

  /** Branch code simulates `ops` on the basis states where the physical qubit `q` is `v`. */
  ghost predicate SimulatesIf(q: Qubit, v: bool, code: seq<C.Compiled>, out: set<Qubit>, phase: int, ops: OpSeq, inc: set<Qubit>, err: int) {
    forall b: Bits {:trigger SimulatesAt(code, out, phase, ops, inc, err, b)} ::
      (q in b) == v ==> SimulatesAt(code, out, phase, ops, inc, err, b)
  }

  /** What the recursive call promises for a branch, read for the whole run of operations. */
  lemma BranchSimulates(q: Qubit, v: bool, code: seq<C.Compiled>, out: set<Qubit>, phase: int,
                        branch: OpSeq, done: OpSeq, inc: set<Qubit>, u: nat)
    requires Simulates(code, out, phase, branch, inc, u * Weight(branch))
    requires IsBranch(branch, done, q, v != (q in inc))
    ensures SimulatesIf(q, v, code, out, phase, done, inc, u * (Weight(done) - 1))
  {
    Scale(u, Weight(branch), Weight(done) - 1);
    SimulatesWeaken(code, out, phase, branch, inc, u * Weight(branch), u * (Weight(done) - 1));
    var err := u * (Weight(done) - 1);
    forall b: Bits {:trigger SimulatesAt(code, out, phase, done, inc, err, b)} | (q in b) == v
      ensures SimulatesAt(code, out, phase, done, inc, err, b) {
      assert SimulatesAt(code, out, phase, branch, inc, u * (Weight(done) - 1), b);
      assert (q in Flip(b, inc)) == (v != (q in inc));
      assert SameRun(branch, done, Flip(b, inc));
    }
  }

  /** Move the toggles `extra` of a branch into its code. */
  lemma ReleaseMany(q: Qubit, v: bool, code: seq<C.Compiled>, s: seq<C.Compiled>, out: set<Qubit>, keep: set<Qubit>,
                    phase: int, ops: OpSeq, inc: set<Qubit>, err: int)
    requires SimulatesIf(q, v, code, out, phase, ops, inc, err)
    requires keep <= out && Toggles(s, out - keep)
    ensures SimulatesIf(q, v, code + s, keep, phase, ops, inc, err)
  {
    var all := code + s;
    forall b: Bits {:trigger SimulatesAt(all, keep, phase, ops, inc, err, b)} | (q in b) == v
      ensures SimulatesAt(all, keep, phase, ops, inc, err, b) {
      assert SimulatesAt(code, out, phase, ops, inc, err, b);
      ConcatMeans(code, s, b);
      var m := C.BitsAll(code, b);
      assert Flip(Flip(m, out - keep), keep) == Flip(m, out);
    }
  }

  /** Report another phase for a branch. */
  lemma Rephase(q: Qubit, v: bool, code: seq<C.Compiled>, out: set<Qubit>, phase: int, d: int, f: nat,
                ops: OpSeq, inc: set<Qubit>, err: int)
    requires SimulatesIf(q, v, code, out, phase, ops, inc, err) && Circ(d - phase) <= f
    ensures SimulatesIf(q, v, code, out, d, ops, inc, err + f)
  {
    hide Circ;
    var e := err + f;
    forall b: Bits {:trigger SimulatesAt(code, out, d, ops, inc, e, b)} | (q in b) == v
      ensures SimulatesAt(code, out, d, ops, inc, e, b) {
      assert SimulatesAt(code, out, phase, ops, inc, err, b);
      NearBy(Arg(code, b) + phase, RunArg(ops, Flip(b, inc)), err, d - phase, f);
    }
  }

  /** Report another phase for a branch and emit a correction, under a control that the branch meets. */
  lemma RephaseEmitting(q: Qubit, v: bool, code: seq<C.Compiled>, out: set<Qubit>, phase: int, d: int, f: nat,
                        a: Angle, prec: nat, fine: bool, ops: OpSeq, inc: set<Qubit>, err: int)
    requires SimulatesIf(q, v, code, out, phase, ops, inc, err) && Circ(d + a - phase) <= f
    requires fine ==> OnGrid(a, prec)
    ensures SimulatesIf(q, v, code + PhaseCode([], a, prec), out, d, ops, inc, err + f + HalfUnitOf(prec, fine))
  {
    hide Circ;
    var s := PhaseCode([], a, prec);
    var all := code + s;
    var e := err + f + HalfUnitOf(prec, fine);
    forall b: Bits {:trigger SimulatesAt(all, out, d, ops, inc, e, b)} | (q in b) == v
      ensures SimulatesAt(all, out, d, ops, inc, e, b) {
      assert SimulatesAt(code, out, phase, ops, inc, err, b);
      ConcatMeans(code, s, b);
      var m := C.BitsAll(code, b);
      PhaseMeans([], a, prec, fine, m);
      hide PhaseCode, Near;
      EmittedNear(Arg(code, b), phase, RunArg(ops, Flip(b, inc)), err, d, a, f, Arg(s, m), HalfUnitOf(prec, fine));
    }
  }

  lemma EmittedNear(x: int, phase: int, want: int, err: int, d: int, a: int, f: nat, y: int, h: nat)
    requires Near(x + phase, want, err) && Circ(d + a - phase) <= f && Circ(y - a) <= h
    ensures Near(x + y + d, want, err + f + h)
  {
    hide Near, Circ;
    NearBy(x + phase, want, err, d + a - phase, f);
    NearBy(x + phase + (d + a - phase), want, err + f, y - a, h);
    assert x + phase + (d + a - phase) + (y - a) == x + y + d;
  }

  /** The two branches put together. */
  lemma JoinBranches(q: Qubit, c0: seq<C.Compiled>, c1: seq<C.Compiled>, out: set<Qubit>, d: int, ops: OpSeq, inc: set<Qubit>, err: int)
    requires SimulatesIf(q, false, c0, out, d, ops, inc, err)
    requires SimulatesIf(q, true, c1, out, d, ops, inc, err)
    ensures Simulates([C.FromPseq(q, c0, c1)], out, d, ops, inc, err)
    ensures c0 == c1 ==> Simulates(c0, out, d, ops, inc, err)
  {
    var code := [C.FromPseq(q, c0, c1)];
    forall b: Bits ensures SimulatesAt(code, out, d, ops, inc, err, b) {
      OneGateMeans(C.FromPseq(q, c0, c1), b);
      var v := q in b;
      assert SimulatesAt(if v then c1 else c0, out, d, ops, inc, err, b);
    }
    forall b: Bits {:trigger SimulatesAt(c0, out, d, ops, inc, err, b)} | c0 == c1
      ensures SimulatesAt(c0, out, d, ops, inc, err, b) {
      var v := q in b;
      assert SimulatesAt(if v then c1 else c0, out, d, ops, inc, err, b);
    }
  }

  /** When one branch is empty and the other only a phase, a controlled phase takes the place of the split. */
  lemma JoinAsPhase(q: Qubit, v: bool, out: set<Qubit>, d: int, a: Angle, prec: nat, ops: OpSeq, inc: set<Qubit>, err: int)
    requires SimulatesIf(q, v, PhaseCode([], a, prec), out, d, ops, inc, err)
    requires SimulatesIf(q, !v, [], out, d, ops, inc, err)
    ensures Simulates(PhaseCode([ControlItem(q, v)], a, prec), out, d, ops, inc, err)
  {
    var ctl := [ControlItem(q, v)];
    var code, plain, none := PhaseCode(ctl, a, prec), PhaseCode([], a, prec), [];
    forall b: Bits ensures SimulatesAt(code, out, d, ops, inc, err, b) {
      assert Holds(ctl, b) <==> (ctl[0].qubit in b) == ctl[0].value;
      SamePhase(ctl, a, prec, b);
      if (q in b) == v {
        assert SimulatesAt(plain, out, d, ops, inc, err, b);
      } else {
        assert SimulatesAt(none, out, d, ops, inc, err, b);
      }
    }
  }

  /** A controlled phase gate is the uncontrolled one where the control holds, and nothing elsewhere. */
  lemma SamePhase(ctl: Control, a: Angle, prec: nat, b: Bits)
    requires ValidControl(ctl)
    ensures C.BitsAll(PhaseCode(ctl, a, prec), b) == b == C.BitsAll(PhaseCode([], a, prec), b)
    ensures Arg(PhaseCode(ctl, a, prec), b) == if Holds(ctl, b) then Arg(PhaseCode([], a, prec), b) else 0
    ensures Arg([], b) == 0
  {
    var r := Round(a, prec);
    var g := if r == PI_1_4 then C.Pt else if r == PI_1_2 then C.Ps else if r == PI_3_4 then C.Pt3
             else if r == PI then C.Pz else if r == PI_5_4 then C.Pt5 else if r == PI_3_2 then C.Psdg
             else if r == PI_7_4 then C.Ptdg else C.P(a);
    if r != 0 {
      NamedPhase(ctl, g, if g == C.P(a) then a else r, b);
      NamedPhase([], g, if g == C.P(a) then a else r, b);
    }
  }

  lemma ScaleSucc(u: nat, w: int)
    ensures u * (w - 1) + u == u * w
  {
  }

  /** An angle that rounds to zero is at most half a unit long, in both directions. */
  lemma RoundsToZero(x: int, prec: nat, fine: bool)
    requires Round(Wrap(x), prec) == 0 && (fine ==> OnGrid(Wrap(x), prec))
    ensures Circ(x) <= HalfUnitOf(prec, fine) && Circ(-x) <= HalfUnitOf(prec, fine)
  {
    hide Round;
    RoundNearOf(Wrap(x), prec, fine);
    CircNeg(Wrap(x));
    CircNeg(x);
    assert Circ(Wrap(x)) == Circ(x);
  }

  lemma CircWrapIn(x: int, y: int)
    ensures Circ(x + Wrap(y)) == Circ(x + y)
  {
    CircShift(x + y, y / TURN);
    assert x + y - y / TURN * TURN == x + Wrap(y);
  }

  /** The branches agree on their phase: report one between the two. */
  lemma ReconcileMid(q: Qubit, c0: seq<C.Compiled>, c1: seq<C.Compiled>, out: set<Qubit>, p0: Angle, p1: Angle,
                     prec: nat, fine: bool, ops: OpSeq, inc: set<Qubit>, err: int)
    requires SimulatesIf(q, false, c0, out, p0, ops, inc, err) && SimulatesIf(q, true, c1, out, p1, ops, inc, err)
    requires Round(Wrap(p1 - p0), prec) == 0 && (fine ==> OnGrid(p0, prec) && OnGrid(p1, prec))
    ensures var d := Mid(p0, p1);
      && Simulates([C.FromPseq(q, c0, c1)], out, d, ops, inc, err + UnitOf(prec, fine))
      && (fine ==> OnGrid(d, prec))
      && (c0 == c1 ==> Simulates(c0, out, d, ops, inc, err + UnitOf(prec, fine)))
  {
    var d := Mid(p0, p1);
    MidNearOf(p0, p1, prec, fine);
    Rephase(q, false, c0, out, p0, d, UnitOf(prec, fine), ops, inc, err);
    Rephase(q, true, c1, out, p1, d, UnitOf(prec, fine), ops, inc, err);
    JoinBranches(q, c0, c1, out, d, ops, inc, err + UnitOf(prec, fine));
  }

  lemma DropOffset(g: Angle, p0: Angle, p1: Angle)
    ensures Circ(0 - g + Neg(Wrap(p1 - p0)) - p0) == Circ(g + p1)
    ensures Circ(0 - g - p1) == Circ(g + p1)
  {
    var x: int, y: int, z: int := g, p0, p1;
    var w: int := Wrap(z - y);
    CircWrapIn(-x - y, -w);
    CircNeg(x + y + w);
    CircWrapIn(x + y, z - y);
    CircNeg(x + z);
    assert -(x + y + w) == -x - y - w;
    assert -(x + z) == 0 - g - p1;
  }

  /** The phase of branch 1 cancels the phase so far: drop both, and correct branch 0. */
  lemma ReconcileDrop(q: Qubit, c0: seq<C.Compiled>, c1: seq<C.Compiled>, out: set<Qubit>, p0: Angle, p1: Angle, g: Angle,
                      prec: nat, fine: bool, ops: OpSeq, inc: set<Qubit>, err: int)
    requires SimulatesIf(q, false, c0, out, p0, ops, inc, err) && SimulatesIf(q, true, c1, out, p1, ops, inc, err)
    requires Round(Wrap(g + p1), prec) == 0
    requires fine ==> OnGrid(g, prec) && OnGrid(p0, prec) && OnGrid(p1, prec)
    ensures var a := Neg(Wrap(p1 - p0));
      && Simulates([C.FromPseq(q, c0 + PhaseCode([], a, prec), c1)], out, 0 - g, ops, inc, err + UnitOf(prec, fine))
      && (c0 == [] && c1 == [] ==>
           Simulates(PhaseCode([ControlItem(q, false)], a, prec), out, 0 - g, ops, inc, err + UnitOf(prec, fine)))
  {
    hide Simulates, SimulatesIf, Round, Circ, PhaseCode;
    var a := Neg(Wrap(p1 - p0));
    var f := HalfUnitOf(prec, fine);
    if fine {
      GridSum(g, p1, prec);
      GridSum(p1, p0, prec);
      GridNeg(Wrap(p1 - p0), prec);
    }
    hide OnGrid;
    RoundsToZero(g + p1, prec, fine);
    DropOffset(g, p0, p1);
    RephaseEmitting(q, false, c0, out, p0, 0 - g, f, a, prec, fine, ops, inc, err);
    Rephase(q, true, c1, out, p1, 0 - g, UnitOf(prec, fine), ops, inc, err);
    JoinBranches(q, c0 + PhaseCode([], a, prec), c1, out, 0 - g, ops, inc, err + UnitOf(prec, fine));
    if c0 == [] && c1 == [] {
      assert c0 + PhaseCode([], a, prec) == PhaseCode([], a, prec);
      JoinAsPhase(q, false, out, 0 - g, a, prec, ops, inc, err + UnitOf(prec, fine));
    }
  }

  /** Otherwise take the phase of branch 0, and correct branch 1. */
  lemma ReconcileKeep(q: Qubit, c0: seq<C.Compiled>, c1: seq<C.Compiled>, out: set<Qubit>, p0: Angle, p1: Angle,
                      prec: nat, fine: bool, ops: OpSeq, inc: set<Qubit>, err: int)
    requires SimulatesIf(q, false, c0, out, p0, ops, inc, err) && SimulatesIf(q, true, c1, out, p1, ops, inc, err)
    requires fine ==> OnGrid(p0, prec) && OnGrid(p1, prec)
    ensures var a := Wrap(p1 - p0);
      && Simulates([C.FromPseq(q, c0, c1 + PhaseCode([], a, prec))], out, p0, ops, inc, err + UnitOf(prec, fine))
      && (c0 == [] && c1 == [] ==>
           Simulates(PhaseCode([ControlItem(q, true)], a, prec), out, p0, ops, inc, err + UnitOf(prec, fine)))
  {
    var a := Wrap(p1 - p0);
    if fine {
      GridSum(p1, p0, prec);
    }
    hide OnGrid;
    CircWrapIn(p0 - p1, p1 - p0);
    CircBelow(0);
    Rephase(q, false, c0, out, p0, p0, UnitOf(prec, fine), ops, inc, err);
    RephaseEmitting(q, true, c1, out, p1, p0, HalfUnitOf(prec, fine), a, prec, fine, ops, inc, err);
    JoinBranches(q, c0, c1 + PhaseCode([], a, prec), out, p0, ops, inc, err + UnitOf(prec, fine));
    if c0 == [] && c1 == [] {
      assert c1 + PhaseCode([], a, prec) == PhaseCode([], a, prec);
      JoinAsPhase(q, true, out, p0, a, prec, ops, inc, err + UnitOf(prec, fine));
    }
  }

  /** Compile the two branches of a split and reconcile their toggles and phases. */
  method CompileSplit(st: Stat, r: seq<C.Compiled>, toggled: set<Qubit>, gphase: Angle, split: Split, ghost done: OpSeq,
                      prec: nat, words: nat, ghost fine: bool)
    returns (r': seq<C.Compiled>, toggled': set<Qubit>, gphase': Angle, ghost s: seq<C.Compiled>, ghost d: int)
    requires IsBranch(split.if0, done, split.q, false) && IsBranch(split.if1, done, split.q, true)
    requires fine ==> OnGrid(gphase, prec) && AllOnGrid(done, prec)
    modifies st
    ensures r' == r + s && Near(gphase', gphase + d, 0)
    ensures Simulates(s, toggled', d, done, toggled, UnitOf(prec, fine) * Weight(done)) && Stays(s, toggled', done, toggled)
    ensures fine ==> OnGrid(gphase', prec)
    ensures st.Counts(s, old(st.ops), old(st.shuffle), old(st.modified))
    decreases CtlItems(done), 0
  {
    hide Near, Simulates, SimulatesIf, Stays, Toggles, OnGrid, AllOnGrid, UnitOf, C.WritesAll, C.SplitsAny, C.GatesAll;
    var q, if0, if1 := split.q, split.if0, split.if1;
    if q in toggled {
      if0, if1 := if1, if0;
    }
    var c0, t0, p0 := CompileSeq(st, if0, toggled, prec, words, fine);
    var c1, t1, p1 := CompileSeq(st, if1, toggled, prec, words, fine);
    BranchStays(c0, t0, if0, done, q, q in toggled, toggled);
    BranchStays(c1, t1, if1, done, q, q !in toggled, toggled);
    hide IsBranch;
    ghost var err := UnitOf(prec, fine) * (Weight(done) - 1);
    BranchSimulates(q, false, c0, t0, p0, if0, done, toggled, UnitOf(prec, fine));
    BranchSimulates(q, true, c1, t1, p1, if1, done, toggled, UnitOf(prec, fine));
    CountsConcat(c0, c1);
    assert st.Counts(c0 + c1, old(st.ops), old(st.shuffle), old(st.modified));
    toggled' := t0 * t1;
    ghost var b0, b1 := c0, c1;
    ghost var x0, x1;
    c0, x0 := PushToggleMany(st, c0, t0 - toggled', words);
    c1, x1 := PushToggleMany(st, c1, t1 - toggled', words);
    ReleaseMany(q, false, b0, x0, t0, toggled', p0, done, toggled, err);
    ReleaseMany(q, true, b1, x1, t1, toggled', p1, done, toggled, err);
    CountsConcat(b0, x0);
    CountsConcat(b1, x1);
    CountsConcat(c0, c1);
    assert st.Counts(c0 + c1, old(st.ops), old(st.shuffle), old(st.modified));
    r', gphase', s, d := Reconcile(st, r, gphase, q, c0, c1, toggled', p0, p1, prec, fine, done, toggled, err,
                                   old(st.ops), old(st.shuffle), old(st.modified));
    ScaleSucc(UnitOf(prec, fine), Weight(done));
    SplitStays(b0, x0, t0, b1, x1, t1, s, done, toggled);
  }

  /** Compiling a branch, written for the whole run of operations. */
  lemma BranchStays(code: seq<C.Compiled>, out: set<Qubit>, branch: OpSeq, done: OpSeq, q: Qubit, v: bool, inc: set<Qubit>)
    requires Stays(code, out, branch, inc) && IsBranch(branch, done, q, v)
    ensures Stays(code, out, done, inc)
  {
  }

  lemma SplitStays(b0: seq<C.Compiled>, x0: seq<C.Compiled>, t0: set<Qubit>, b1: seq<C.Compiled>, x1: seq<C.Compiled>, t1: set<Qubit>,
                   s: seq<C.Compiled>, done: OpSeq, inc: set<Qubit>)
    requires Stays(b0, t0, done, inc) && Stays(b1, t1, done, inc)
    requires C.WritesAll(x0) <= t0 && C.WritesAll(x1) <= t1 && C.WritesAll(s) <= C.WritesAll((b0 + x0) + (b1 + x1))
    ensures Stays(s, t0 * t1, done, inc)
  {
    CountsConcat(b0, x0);
    CountsConcat(b1, x1);
    CountsConcat(b0 + x0, b1 + x1);
  }

  /** The end of a split: decide on the phase, and emit a partition or a controlled phase. */
  method Reconcile(st: Stat, r: seq<C.Compiled>, gphase: Angle, q: Qubit, if0: seq<C.Compiled>, if1: seq<C.Compiled>,
                   ghost out: set<Qubit>, phase0: Angle, phase1: Angle, prec: nat, ghost fine: bool,
                   ghost done: OpSeq, ghost inc: set<Qubit>, ghost err: int,
                   ghost ops0: nat, ghost shuffle0: bool, ghost modified0: set<Qubit>)
    returns (r': seq<C.Compiled>, gphase': Angle, ghost s: seq<C.Compiled>, ghost d: int)
    requires SimulatesIf(q, false, if0, out, phase0, done, inc, err)
    requires SimulatesIf(q, true, if1, out, phase1, done, inc, err)
    requires st.Counts(if0 + if1, ops0, shuffle0, modified0)
    requires fine ==> OnGrid(gphase, prec) && OnGrid(phase0, prec) && OnGrid(phase1, prec)
    modifies st
    ensures r' == r + s && Near(gphase', gphase + d, 0)
    ensures Simulates(s, out, d, done, inc, err + UnitOf(prec, fine)) && C.WritesAll(s) <= C.WritesAll(if0 + if1)
    ensures fine ==> OnGrid(gphase', prec)
    ensures st.Counts(s, ops0, shuffle0, modified0)
  {
    hide Simulates, SimulatesIf, Near, Circ, Round, Mid, PhaseCode, OnGrid, UnitOf, C.GatesAll, C.SplitsAny,
      C.WritesAll;
    var c0, c1 := if0, if1;
    CountsConcat(c0, c1);
    NothingCounted();
    var phaseDiff := Wrap(phase1 - phase0);
    if Round(phaseDiff, prec) == 0 {
      d := Mid(phase0, phase1);
      gphase' := Wrap(gphase + Mid(phase0, phase1));
      NearWrap(gphase + d);
      ReconcileMid(q, c0, c1, out, phase0, phase1, prec, fine, done, inc, err);
      if fine {
        GridSum(gphase, d, prec);
      }
      if |c0| == 0 && |c1| == 0 {
        return r, gphase', [], d;
      }
    } else if Round(Wrap(gphase + phase1), prec) == 0 {
      d := 0 - gphase;
      gphase' := 0;
      NearRefl(0);
      TurnsOnGrid(prec);
      ReconcileDrop(q, c0, c1, out, phase0, phase1, gphase, prec, fine, done, inc, err);
      var a := Neg(phaseDiff);
      if |c0| == 0 && |c1| == 0 {
        r' := PushPhase(st, r, [ControlItem(q, false)], a, prec);
        PhaseWrites([ControlItem(q, false)], a, prec);
        return r', gphase', PhaseCode([ControlItem(q, false)], a, prec), d;
      }
      CountsConcat(c0, PhaseCode([], a, prec));
      PhaseWrites([], a, prec);
      c0 := PushPhase(st, c0, [], a, prec);
    } else {
      d := phase0;
      gphase' := Wrap(gphase + phase0);
      NearWrap(gphase + phase0);
      if fine {
        GridSum(gphase, phase0, prec);
      }
      ReconcileKeep(q, c0, c1, out, phase0, phase1, prec, fine, done, inc, err);
      if |c0| == 0 && |c1| == 0 {
        r' := PushPhase(st, r, [ControlItem(q, true)], phaseDiff, prec);
        PhaseWrites([ControlItem(q, true)], phaseDiff, prec);
        return r', gphase', PhaseCode([ControlItem(q, true)], phaseDiff, prec), d;
      }
      CountsConcat(c1, PhaseCode([], phaseDiff, prec));
      PhaseWrites([], phaseDiff, prec);
      c1 := PushPhase(st, c1, [], phaseDiff, prec);
    }
    st.shuffle := true;
    s := [C.FromPseq(q, c0, c1)];
    OneGateMeans(C.FromPseq(q, c0, c1), {});
    r' := r + [C.FromPseq(q, c0, c1)];
  }

  /** The compiler: for every precision, the compiled code and the outgoing toggles and phase do what
      the operations do after the incoming toggles, on every basis state. The bits agree exactly;
      the phases agree within one unit for each operation and each control item, and exactly if all phases
      are known to be on the grid of the precision. */
  method CompileSeq(st: Stat, ops: OpSeq, incoming: set<Qubit>, prec: nat, words: nat, ghost fine: bool)
    returns (r: seq<C.Compiled>, toggled: set<Qubit>, gphase: Angle)
    requires AllValid(ops) && (fine ==> AllOnGrid(ops, prec))
    modifies st
    ensures Simulates(r, toggled, gphase, ops, incoming, UnitOf(prec, fine) * Weight(ops)) && Stays(r, toggled, ops, incoming)
    ensures fine ==> OnGrid(gphase, prec)
    ensures st.Counts(r, old(st.ops), old(st.shuffle), old(st.modified))
    decreases CtlItems(ops), 2
  {
    hide Near, Simulates, Weight, CtlItems, C.GatesAll, C.SplitsAny, C.WritesAll, Stays, UnitOf;
    r, toggled, gphase := [], incoming, 0;
    var i := 0;
    NothingDone(ops, incoming, UnitOf(prec, fine));
    NothingCounted();
    TurnsOnGrid(prec);
    hide OnGrid, AllOnGrid;
    while i < |ops|
      invariant i <= |ops|
      invariant Simulates(r, toggled, gphase, ops[..i], incoming, UnitOf(prec, fine) * Weight(ops[..i]))
      invariant Stays(r, toggled, ops[..i], incoming) && (fine ==> OnGrid(gphase, prec))
      invariant st.Counts(r, old(st.ops), old(st.shuffle), old(st.modified))
    {
      ghost var r0, t0, g0 := r, toggled, gphase;
      var n;
      ghost var s, d;
      r, toggled, gphase, n, s, d := CompileNext(st, r, toggled, gphase, ops, i, prec, words, fine);
      Advance(ops, i, n, r0, t0, g0, incoming, s, toggled, d, gphase, UnitOf(prec, fine));
      CountsConcat(r0, s);
      AdvanceStays(ops, i, n, r0, t0, incoming, s, toggled);
      i := i + n;
    }
    assert ops[..i] == ops;
  }

  /** One turn of the loop: a split of the next `n` operations, or one operation. */
  method CompileNext(st: Stat, r: seq<C.Compiled>, toggled: set<Qubit>, gphase: Angle, ops: OpSeq, i: nat,
                     prec: nat, words: nat, ghost fine: bool)
    returns (r': seq<C.Compiled>, toggled': set<Qubit>, gphase': Angle, n: nat, ghost s: seq<C.Compiled>, ghost d: int)
    requires AllValid(ops) && i < |ops| && (fine ==> OnGrid(gphase, prec) && AllOnGrid(ops, prec))
    modifies st
    ensures 0 < n && i + n <= |ops| && r' == r + s && Near(gphase', gphase + d, 0)
    ensures Simulates(s, toggled', d, ops[i..i + n], toggled, UnitOf(prec, fine) * Weight(ops[i..i + n]))
    ensures Stays(s, toggled', ops[i..i + n], toggled) && (fine ==> OnGrid(gphase', prec))
    ensures st.Counts(s, old(st.ops), old(st.shuffle), old(st.modified))
    decreases CtlItems(ops), 1
  {
    hide Near, Simulates, IsBranch, Weight, CtlItems, C.GatesAll, C.SplitsAny, C.WritesAll, Stays, OnGrid, AllOnGrid,
      UnitOf;
    n := 1;
    var split := TryPartition(ops[i], ops[i + 1..]);
    if split.Some? {
      n := 1 + split.value.len;
      ghost var done := [ops[i]] + ops[i + 1..][..split.value.len];
      SliceOfSlice(ops, i, split.value.len);
      SliceItems(ops, i, i + n);
      SliceOnGrid(ops, i, i + n, prec);
      r', toggled', gphase', s, d := CompileSplit(st, r, toggled, gphase, split.value, done, prec, words, fine);
    } else {
      assert ops[i..i + n] == [ops[i]];
      SliceOnGrid(ops, i, i + n, prec);
      r', toggled', gphase', s, d := CompileOne(st, r, toggled, gphase, ops[i], prec, fine);
    }
  }

  /** The code for the first `i` operations, continued by the code for the next `n`. */
  lemma Advance(ops: OpSeq, i: nat, n: nat, r: seq<C.Compiled>, t: set<Qubit>, p: int, inc: set<Qubit>,
                s: seq<C.Compiled>, t': set<Qubit>, d: int, p': int, u: nat)
    requires i + n <= |ops| && Near(p', p + d, 0)
    requires Simulates(r, t, p, ops[..i], inc, u * Weight(ops[..i]))
    requires Simulates(s, t', d, ops[i..i + n], t, u * Weight(ops[i..i + n]))
    ensures Simulates(r + s, t', p', ops[..i + n], inc, u * Weight(ops[..i + n]))
  {
    hide Simulates, Near;
    var more := ops[i..i + n];
    SimulatesConcat(r, t, p, ops[..i], inc, u * Weight(ops[..i]), s, t', d, more, u * Weight(more), p');
    assert ops[..i + n] == ops[..i] + more;
    CtlItemsConcat(ops[..i], more);
    ScaleAdd(u, Weight(ops[..i]), Weight(more));
  }

  lemma AdvanceStays(ops: OpSeq, i: nat, n: nat, r: seq<C.Compiled>, t: set<Qubit>, inc: set<Qubit>, s: seq<C.Compiled>, t': set<Qubit>)
    requires i + n <= |ops| && Stays(r, t, ops[..i], inc) && Stays(s, t', ops[i..i + n], t)
    ensures Stays(r + s, t', ops[..i + n], inc)
  {
    hide Stays;
    StaysConcat(r, t, ops[..i], inc, s, t', ops[i..i + n]);
    assert ops[..i] + ops[i..i + n] == ops[..i + n];
  }

  lemma SliceOnGrid(ops: OpSeq, i: nat, j: nat, prec: nat)
    requires i <= j <= |ops|
    ensures AllOnGrid(ops, prec) ==> AllOnGrid(ops[i..j], prec)
  {
    hide OnGrid;
  }

  lemma ScaleAdd(u: nat, v: nat, w: nat)
    ensures u * v + u * w == u * (v + w)
  {
  }

  lemma NothingCounted()
    ensures C.GatesAll([]) == 0 && !C.SplitsAny([]) && C.WritesAll([]) == {}
  {
  }

  lemma NothingDone(ops: OpSeq, inc: set<Qubit>, u: nat)
    ensures Simulates([], inc, 0, ops[..0], inc, u * Weight(ops[..0])) && Stays([], inc, ops[..0], inc)
  {
    assert Weight(ops[..0]) == 0;
    NearRefl(0);
  }

  lemma SliceOfSlice(ops: OpSeq, i: nat, len: nat)
    requires i < |ops| && i + 1 + len <= |ops|
    ensures [ops[i]] + ops[i + 1..][..len] == ops[i..i + 1 + len]
  {
  }

  /** A part of a sequence has no more control items than the whole. */
  lemma SliceItems(ops: OpSeq, i: nat, j: nat)
    requires i <= j <= |ops|
    ensures CtlItems(ops[i..j]) <= CtlItems(ops)
  {
    hide CtlItems;
    assert ops == ops[..i] + ops[i..j] + ops[j..];
    CtlItemsConcat(ops[..i] + ops[i..j], ops[j..]);
    CtlItemsConcat(ops[..i], ops[i..j]);
  }

  /** How far compiled code may be off: not at all if all phases are on the grid, and one unit for each operation and
      each control item otherwise. */
  ghost function Drift(ops: OpSeq, prec: nat): nat {
    UnitOf(prec, AllOnGrid(ops, prec)) * Weight(ops)
  }

  /** With all phases on the grid nothing is rounded: bits and phase agree exactly. */
  lemma ExactOnGrid(code: seq<C.Compiled>, out: set<Qubit>, phase: int, ops: OpSeq, inc: set<Qubit>, prec: nat, b: Bits)
    requires AllOnGrid(ops, prec) && Simulates(code, out, phase, ops, inc, Drift(ops, prec))
    ensures Flip(C.BitsAll(code, b), out) == Run(ops, Flip(b, inc))
    ensures Wrap(Arg(code, b) + phase) == Wrap(RunArg(ops, Flip(b, inc)))
  {
    NoDrift(ops, prec);
    assert SimulatesAt(code, out, phase, ops, inc, 0, b);
    hide *;
    SimulatedExactly(code, out, phase, ops, inc, b);
  }

  lemma NoDrift(ops: OpSeq, prec: nat)
    requires AllOnGrid(ops, prec)
    ensures Drift(ops, prec) == 0
  {
    hide AllOnGrid, Weight;
  }

  lemma SimulatedExactly(code: seq<C.Compiled>, out: set<Qubit>, phase: int, ops: OpSeq, inc: set<Qubit>, b: Bits)
    requires SimulatesAt(code, out, phase, ops, inc, 0, b)
    ensures Flip(C.BitsAll(code, b), out) == Run(ops, Flip(b, inc))
    ensures Wrap(Arg(code, b) + phase) == Wrap(RunArg(ops, Flip(b, inc)))
  {
    hide Near, Run, RunArg, Arg;
    NearZeroIsEqual(Arg(code, b) + phase, RunArg(ops, Flip(b, inc)));
  }

  /** Compiled code maps distinct basis states to distinct basis states. */
  lemma CodeInjective(code: seq<C.Compiled>, out: set<Qubit>, phase: int, ops: OpSeq, inc: set<Qubit>, err: int, b: Bits, c: Bits)
    requires AllValid(ops) && Simulates(code, out, phase, ops, inc, err)
    requires C.BitsAll(code, b) == C.BitsAll(code, c)
    ensures b == c
  {
    assert SimulatesAt(code, out, phase, ops, inc, err, b);
    assert SimulatesAt(code, out, phase, ops, inc, err, c);
    RunInjective(ops, Flip(b, inc), Flip(c, inc));
    assert b == Flip(Flip(b, inc), inc) == Flip(Flip(c, inc), inc) == c;
  }

  // The queue

  function CtlQubits(c: Control): set<Qubit> {
    set i | 0 <= i < |c| :: c[i].qubit
  }

  /** The qubits on which the effect of the operations depends. */
  function ReadsOf(ops: OpSeq): set<Qubit> {
    if ops == [] then {}
    else
      var o := ops[|ops| - 1];
      ReadsOf(ops[..|ops| - 1]) + CtlQubits(o.ctl) + if o.op.Swap? then {o.op.q1, o.op.q2} else {}
  }

  /** Whether a pending gate on `q` has to wait for operations that read and write these qubits; the rz part only
      minds writes, the rx part only reads. */
  predicate IsBlocked(read: set<Qubit>, written: set<Qubit>, q: Qubit, gate: U.U3, prec: nat) {
    var rzRx := U.ToRzRx(gate, prec);
    || ((rzRx.None? || Round(rzRx.value.1, prec) != 0) && q in read)
    || ((rzRx.None? || Round(rzRx.value.0, prec) != 0) && q in written)
  }

  class Queue {
    var ops: OpSeq
    var readSet: set<Qubit>
    var writeSet: set<Qubit>

    ghost predicate IsValid()
      reads this
    {
      AllValid(ops) && readSet == ReadsOf(ops) && writeSet == WritesOf(ops)
    }

    constructor ()
      ensures IsValid() && ops == []
    {
      ops, readSet, writeSet := [], {}, {};
    }

    method X(q: Qubit)
      requires IsValid()
      modifies this
      ensures IsValid() && ops == old(ops) + [CtlOp([], Op.X(q))]
    {
      writeSet := writeSet + {q};
      ops := ops + [CtlOp([], Op.X(q))];
      assert ops[..|ops| - 1] == old(ops);
    }

    method CtlPhase(ctl: Control, a: Angle)
      requires IsValid() && ValidControl(ctl)
      modifies this
      ensures IsValid() && ops == old(ops) + [CtlOp(ctl, Gphase(a))]
    {
      readSet := readSet + CtlQubits(ctl);
      ops := ops + [CtlOp(ctl, Gphase(a))];
      assert ops[..|ops| - 1] == old(ops);
    }

    method CtlX(ctl: Control, q: Qubit)
      requires IsValid() && Valid(CtlOp(ctl, Op.X(q)))
      modifies this
      ensures IsValid() && ops == old(ops) + [CtlOp(ctl, Op.X(q))]
    {
      readSet := readSet + CtlQubits(ctl);
      writeSet := writeSet + {q};
      ops := ops + [CtlOp(ctl, Op.X(q))];
      assert ops[..|ops| - 1] == old(ops);
    }

    method CtlSwap(ctl: Control, q1: Qubit, q2: Qubit)
      requires IsValid() && Valid(CtlOp(ctl, Swap(q1, q2)))
      modifies this
      ensures IsValid() && ops == old(ops) + [CtlOp(ctl, Swap(q1, q2))]
    {
      readSet := readSet + CtlQubits(ctl) + {q1, q2};
      writeSet := writeSet + {q1, q2};
      ops := ops + [CtlOp(ctl, Swap(q1, q2))];
      assert ops[..|ops| - 1] == old(ops);
    }

    predicate Blocks(q: Qubit, gate: U.U3, prec: nat)
      reads this
    {
      IsBlocked(readSet, writeSet, q, gate, prec)
    }

    method Clear()
      modifies this
      ensures IsValid() && ops == []
    {
      readSet, writeSet, ops := {}, {}, [];
    }

    /** Empty the queue into one compiled tree. The tree does to every basis state what the queued
        operations do, up to the one phase that the compiler drops; no tree means no change. */
    method Compile(st: Stat, prec: nat, words: nat) returns (res: Option<C.Compiled>, ghost dropped: int)
      requires IsValid()
      modifies this, st
      ensures IsValid() && ops == []
      ensures var code := if res.Some? then [res.value] else [];
        && Simulates(code, {}, dropped, old(ops), {}, Drift(old(ops), prec))
        && C.WritesAll(code) <= WritesOf(old(ops))
        && st.Counts(code, old(st.ops), old(st.shuffle), old(st.modified))
    {
      hide Simulates, Toggles, C.WritesAll, C.SplitsAny, C.GatesAll;
      readSet, writeSet := {}, {};
      var todo := ops;
      ops := [];
      var inner, toggled, gphase := CompileSeq(st, todo, {}, prec, words, AllOnGrid(todo, prec));
      dropped := gphase;
      ghost var code, s := inner, [];
      inner, s := PushToggleMany(st, inner, toggled, words);
      CountsConcat(code, s);
      Released(code, s, toggled, gphase, todo, Drift(todo, prec));
      if |inner| == 0 {
        return None, dropped;
      }
      WrapSeq(inner, dropped, todo, Drift(todo, prec));
      res := Some(if |inner| == 1 then inner[0] else C.FromSeq(inner));
    }
  }

  lemma Released(code: seq<C.Compiled>, s: seq<C.Compiled>, t: set<Qubit>, phase: int, ops: OpSeq, err: int)
    requires Simulates(code, t, phase, ops, {}, err) && Toggles(s, t)
    ensures Simulates(code + s, {}, phase, ops, {}, err)
  {
    var all := code + s;
    forall b: Bits ensures SimulatesAt(all, {}, phase, ops, {}, err, b) {
      assert SimulatesAt(code, t, phase, ops, {}, err, b);
      ConcatMeans(code, s, b);
      assert Flip(Flip(C.BitsAll(code, b), t), {}) == Flip(C.BitsAll(code, b), t);
    }
  }

  /** A sequence as one tree: `from_seq`. */
  lemma WrapSeq(code: seq<C.Compiled>, phase: int, ops: OpSeq, err: int)
    requires Simulates(code, {}, phase, ops, {}, err)
    ensures var one := [if |code| == 1 then code[0] else C.FromSeq(code)];
      && Simulates(one, {}, phase, ops, {}, err)
      && C.GatesAll(one) == C.GatesAll(code) && (C.SplitsAny(one) <==> C.SplitsAny(code)) && C.WritesAll(one) == C.WritesAll(code)
  {
    if |code| == 1 {
      assert code == [code[0]];
    } else {
      var one := [C.FromSeq(code)];
      forall b: Bits ensures SimulatesAt(one, {}, phase, ops, {}, err, b) {
        assert SimulatesAt(code, {}, phase, ops, {}, err, b);
        OneGateMeans(C.FromSeq(code), b);
      }
      OneGateMeans(C.FromSeq(code), {});
    }
  }
}
