/** Whole runs of the lazy simulator against immediate execution. */
module LazyRuns {
  import opened Wrappers
  import opened Angles
  import opened Complexes
  import opened Controls
  import opened Ops
  import opened Circuits
  import opened PendingGates
  import opened LazyStates
  import opened LazySimulator
  import opened DenseVectors
  import opened Masses
  import P = SparseParts
  import U = U3Gates
  import UC = U3Composition
  import M = Measurements
  import S = SparseStatevector

  datatype Call =
    | CallU3(q: Qubit, gate: U.U3)
    | CallX(ctl: Control, q: Qubit)
    | CallSwap(ctl: Control, q1: Qubit, q2: Qubit)
    | CallPhase(ctl: Control, a: Angle)
    | CallMeasure(q: Qubit, bias: int)
    | CallFlush

  /** Of a measurement that has an outcome: the value, and the probabilities of 0 and of 1. */
  type Answer = Option<(bool, real, real)>

  /** What the simulator demands of its callers. */
  ghost predicate ValidCall(c: Call) {
    match c
    case CallX(ctl, q) => ValidControl(ctl) && !Uses(ctl, q)
    case CallSwap(ctl, q1, q2) => ValidControl(ctl) && !Uses(ctl, q1) && !Uses(ctl, q2) && q1 != q2
    case CallPhase(ctl, a) => ValidControl(ctl)
    case CallMeasure(q, bias) => 0 <= bias < TURN
    case _ => true
  }

  /** What the call asks for. A measurement asks for the projection onto its outcome, rescaled. */
  function Asked(h: Circle, c: Call, r: Answer, scale: Complex): Circuit {
    match c
    case CallU3(q, gate) => [Pend(h, q, gate)]
    case CallX(ctl, q) => [Controlled(CtlOp(ctl, Op.X(q)))]
    case CallSwap(ctl, q1, q2) => [Controlled(CtlOp(ctl, Swap(q1, q2)))]
    case CallPhase(ctl, a) => [Controlled(CtlOp(ctl, Gphase(a)))]
    case CallMeasure(q, bias) => if r.Some? then [Single(q, Projection(r.value.0, scale))] else []
    case CallFlush => []
  }

  /** Only measurements answer, and do as long as there is any weight: with a fair draw. The factor is that of the kept part
      of the total weight, or 1 where nothing is dropped. */
  ghost predicate Answers(c: Call, r: Answer, scale: Complex, norm: real -> real, total: real) {
    && (r.Some? ==> c.CallMeasure? && M.DrawnFairly(r.value, c.bias) && scale == FactorFor(r.value, norm, total))
    && (c.CallMeasure? && total != 0.0 ==> r.Some?)
  }

  function FactorFor(r: (bool, real, real), norm: real -> real, total: real): Complex {
    var dropped := if r.0 then r.1 else r.2;
    if dropped != 0.0 then Complex(norm(Product(1.0 - dropped, total)), 0.0) else ONE
  }

  /** The factor makes any weight one. */
  ghost predicate IsNormalising(norm: real -> real) {
    forall w {:trigger norm(w)} :: w > 0.0 ==> Product(Norm2(Complex(norm(w), 0.0)), w) == 1.0
  }

  /** Immediate execution: the gates in the order of the calls. */
  function AllAsked(h: Circle, calls: seq<Call>, rs: seq<Answer>, scales: seq<Complex>): Circuit
    requires |rs| == |calls| && |scales| == |calls|
  {
    var n := |calls| - 1;
    if n < 0 then [] else AllAsked(h, calls[..n], rs[..n], scales[..n]) + Asked(h, calls[n], rs[n], scales[n])
  }

  lemma AskedNext(h: Circle, calls: seq<Call>, i: nat, rs: seq<Answer>, scales: seq<Complex>, r: Answer, scale: Complex)
    requires i < |calls| && |rs| == i && |scales| == i
    ensures AllAsked(h, calls[..i + 1], rs + [r], scales + [scale]) ==
      AllAsked(h, calls[..i], rs, scales) + Asked(h, calls[i], r, scale)
  {
    assert calls[..i + 1][..i] == calls[..i] && (rs + [r])[..i] == rs && (scales + [scale])[..i] == scales;
    hide Asked;
  }

  lemma ThenAsked(h: Circle, c0: Circuit, c: Circuit, d: Circuit, e: Circuit, g: Circuit)
    requires Same(h, c0 + d, c) && Same(h, c + g, e)
    ensures Same(h, c0 + (d + g), e)
  {
    hide Same;
    assert c0 + (d + g) == c0 + d + g;
    SameSuffix(h, c0 + d, c, g);
    SameTrans(h, c0 + d + g, c + g, e);
  }

  // Which calls are exact

  /** Rounding decides nothing in the call, with these gates waiting: what a caller could check before. */
  ghost predicate Decides(h: Circle, numeric: U.Numeric, prec: nat, m: States, c: Call) {
    match c
    case CallU3(q, gate) => q in m ==> ComposesExactly(h, numeric, m[q].pending, gate)
    case CallX(ctl, q) => ctl == [] || AllPlain(prec, m)
    case CallPhase(ctl, a) => |ctl| <= 1 || (AllPlain(prec, m) && Angles.IsPlain(a, prec))
    case _ => AllPlain(prec, m)
  }

  /** The same for a run, and the flush at its end. */
  ghost predicate AllDecide(h: Circle, numeric: U.Numeric, prec: nat, met: seq<States>, calls: seq<Call>)
    requires |met| == |calls|
  {
    forall i :: 0 <= i < |calls| ==> Decides(h, numeric, prec, met[i], calls[i])
  }

  lemma DecideNext(h: Circle, numeric: U.Numeric, prec: nat, met: seq<States>, m: States, calls: seq<Call>, i: nat)
    requires i < |calls| && |met| == i
    ensures AllDecide(h, numeric, prec, met + [m], calls[..i + 1]) ==
      (AllDecide(h, numeric, prec, met, calls[..i]) && Decides(h, numeric, prec, m, calls[i]))
  {
    hide Decides;
    var c, n := calls[..i + 1], met + [m];
    assert c[i] == calls[i] && n[i] == m;
    assert forall k :: 0 <= k < i ==> c[k] == calls[..i][k] && n[k] == met[k];
  }

  /** With everything on the grid, rounding decides nothing. */
  lemma FineDecides(h: Circle, numeric: U.Numeric, prec: nat, m: States, c: Call, was: seq<(U.U3, U.U3)>, now: seq<(U.U3, U.U3)>)
    requires AllFine(prec, m) && CallFine(prec, c) && NewWell(h, numeric, prec, was, now)
    requires c.CallU3? && c.q in m ==> now == was + [(m[c.q].pending, c.gate)]
    ensures Decides(h, numeric, prec, m, c)
  {
    FineArePlain(prec, m);
    if c.CallU3? && c.q in m {
      NewWellOne(h, numeric, prec, was, m[c.q].pending, c.gate);
      hide UC.IsExact;
    } else if c.CallPhase? && c.ctl != [] {
      PlainAngles(c.a, prec);
      hide Angles.IsPlain, Circ, OnGrid;
    }
    hide AllPlain, AllFine;
  }

  /** All angles of the call are on the grid. */
  ghost predicate CallFine(prec: nat, c: Call) {
    match c
    case CallU3(q, gate) => U.IsFine(gate, prec)
    case CallPhase(ctl, a) => ctl == [] || OnGrid(a, prec)
    case _ => true
  }

  /** A call of a fine Clifford circuit; phases with several control items may be any on the grid. */
  ghost predicate CallClifford(prec: nat, c: Call) {
    match c
    case CallU3(q, gate) => UC.IsClifford(gate)
    case CallPhase(ctl, a) => ctl == [] || if |ctl| == 1 then a % PI_1_2 == 0 else OnGrid(a, prec)
    case _ => true
  }

  ghost predicate AllFineCalls(prec: nat, calls: seq<Call>) {
    forall i :: 0 <= i < |calls| ==> CallFine(prec, calls[i])
  }

  ghost predicate AllCliffordCalls(prec: nat, calls: seq<Call>) {
    forall i :: 0 <= i < |calls| ==> CallClifford(prec, calls[i])
  }

  lemma CallsNext(prec: nat, calls: seq<Call>, i: nat)
    requires i < |calls|
    ensures AllFineCalls(prec, calls[..i + 1]) == (AllFineCalls(prec, calls[..i]) && CallFine(prec, calls[i]))
    ensures AllCliffordCalls(prec, calls[..i + 1]) == (AllCliffordCalls(prec, calls[..i]) && CallClifford(prec, calls[i]))
  {
    hide CallFine, CallClifford;
    var c := calls[..i + 1];
    assert c[i] == calls[i];
    assert forall k :: 0 <= k < i ==> c[k] == calls[..i][k];
  }

  /** Quarter turns are on every grid of at least two bits. */
  lemma CliffordsAreFine(prec: nat, calls: seq<Call>)
    requires prec >= 2
    ensures AllCliffordCalls(prec, calls) ==> AllFineCalls(prec, calls)
  {
    hide OnGrid;
    if AllCliffordCalls(prec, calls) {
      forall i | 0 <= i < |calls| ensures CallFine(prec, calls[i]) {
        CliffordIsFine(prec, calls[i]);
      }
    }
  }

  lemma CliffordIsFine(prec: nat, c: Call)
    requires prec >= 2 && CallClifford(prec, c)
    ensures CallFine(prec, c)
  {
    TurnsOnGrid(prec);
    match c
    case CallU3(q, gate) =>
      QuartersOnGrid(gate.phi, prec);
      QuartersOnGrid(gate.lambda, prec);
    case CallPhase(ctl, a) =>
      if |ctl| == 1 {
        QuartersOnGrid(a, prec);
      }
    case _ =>
  }

  /** The floating-point path has not been taken. */
  lemma NoneNumeric(h: Circle, numeric: U.Numeric, prec: nat, was: seq<(U.U3, U.U3)>, now: seq<(U.U3, U.U3)>)
    requires was <= now
    requires forall i :: |was| <= i < |now| ==> !U.IsNumeric(now[i].0.theta, Wrap(now[i].0.phi + now[i].1.lambda), now[i].1.theta)
    ensures NewWell(h, numeric, prec, was, now)
  {
    hide ComposesWell, U.IsNumeric;
    forall i | |was| <= i < |now| ensures ComposesWell(h, numeric, prec, now[i].0, now[i].1) {
      NotNumeric(h, numeric, prec, now[i].0, now[i].1);
    }
  }

  // Runs

  /** Makes one call. `norm` gives the factor that makes the kept weight of a measurement one. */
  method Make(sim: Simulator, c: Call, norm: real -> real) returns (r: Answer, ghost scale: Complex)
    requires sim.Valid() && Quiet(sim.qubits) && ValidCall(c)
    modifies sim`applied, sim`qubits, sim`state, sim`fine, sim`composed, sim.queue, sim.state, sim.state.data
    ensures sim.Valid() && fresh(sim.Repr() - old(sim.Repr())) && Quiet(sim.qubits) && old(sim.composed) <= sim.composed
    ensures Decides(sim.h, sim.numeric, sim.prec, old(sim.qubits), c) ==>
      Same(sim.h, old(sim.Logical()) + Asked(sim.h, c, r, scale), sim.Logical())
    ensures Answers(c, r, scale, norm, old(sim.Total()))
    ensures old(sim.Total()) == 1.0 && IsNormalising(norm) ==> sim.Total() == 1.0
    ensures sim.fine == (old(sim.fine) && CallFine(sim.prec, c) && NewWell(sim.h, sim.numeric, sim.prec, old(sim.composed), sim.composed))
    ensures sim.fine ==> Decides(sim.h, sim.numeric, sim.prec, old(sim.qubits), c)
    ensures AllClifford(old(sim.qubits)) && CallClifford(sim.prec, c) ==>
      AllClifford(sim.qubits) && NewWell(sim.h, sim.numeric, sim.prec, old(sim.composed), sim.composed)
  {
    hide Simulator.Valid, Simulator.Logical, Simulator.Total, Same, NewWell, Quiet, AllClifford, AllPlain, AllFine, Projection, Sharp, IsLevel,
      IsCircle, ComposesExactly, Angles.IsPlain, M.DrawnFairly, Norm2, Product, Clean, Log, IsNormalising;
    ghost var was, all, m := sim.Logical(), sim.composed, sim.qubits;
    assert was + [] == was;
    NewWellOne(sim.h, sim.numeric, sim.prec, all, U.X, U.X);
    sim.Sound();
    SharpAtLeast2(sim.prec, sim.qubits, sim.queue.ops);
    r, scale := None, ONE;
    match c {
      case CallU3(q, gate) => sim.U3(q, gate);
      case CallX(ctl, q) =>
        sim.CtlX(ctl, q);
        NewWellGrows(sim.h, sim.numeric, sim.prec, all, sim.composed);
      case CallSwap(ctl, q1, q2) => sim.CtlSwap(ctl, q1, q2);
      case CallPhase(ctl, a) =>
        sim.CtlPhase(ctl, a);
        NewWellGrows(sim.h, sim.numeric, sim.prec, all, sim.composed);
      case CallMeasure(q, bias) =>
        ghost var total := sim.Total();
        ghost var w;
        r, scale, w := sim.Measure(q, bias, norm);
        if r.Some? && total == 1.0 && IsNormalising(norm) {
          KeptIsOne(r.value, bias, norm);
        }
      case CallFlush =>
        sim.FlushAll();
        NoneWaiting(sim.qubits);
    }
    if sim.fine {
      FineDecides(sim.h, sim.numeric, sim.prec, m, c, all, sim.composed);
    }
  }

  lemma KeptIsOne(r: (bool, real, real), bias: int, norm: real -> real)
    requires M.DrawnFairly(r, bias) && IsNormalising(norm)
    ensures var dropped := if r.0 then r.1 else r.2;
      var w := Product(1.0 - dropped, 1.0);
      dropped != 0.0 ==> Product(Norm2(Complex(norm(w), 0.0)), w) == 1.0
  {
    var dropped := if r.0 then r.1 else r.2;
    assert Product(1.0 - dropped, 1.0) == 1.0 - dropped > 0.0;
    hide Norm2, Product;
    var x := norm(1.0 - dropped);
  }

  lemma NewWellGrows(h: Circle, numeric: U.Numeric, prec: nat, was: seq<(U.U3, U.U3)>, now: seq<(U.U3, U.U3)>)
    ensures NewWell(h, numeric, prec, was, now) ==> was <= now
  {
    hide ComposesWell;
  }

  lemma NoneWaiting(m: States)
    ensures m == map[] ==> AllClifford(m) && Quiet(m)
  {
  }

  /** What a run keeps account of. */
  ghost predicate RunAnswers(calls: seq<Call>, rs: seq<Answer>, scales: seq<Complex>, norm: real -> real) {
    && |rs| == |scales| == |calls|
    && forall i :: 0 <= i < |calls| ==> AnswersSome(calls[i], rs[i], scales[i], norm)
  }

  ghost predicate AnswersSome(c: Call, r: Answer, scale: Complex, norm: real -> real) {
    exists total :: Answers(c, r, scale, norm, total)
  }

  /** The same with a vector of weight one throughout. */
  ghost predicate UnitAnswers(calls: seq<Call>, rs: seq<Answer>, scales: seq<Complex>, norm: real -> real) {
    |rs| == |scales| == |calls| && forall i :: 0 <= i < |calls| ==> Answers(calls[i], rs[i], scales[i], norm, 1.0)
  }

  lemma AnswersNext(calls: seq<Call>, i: nat, rs: seq<Answer>, scales: seq<Complex>, norm: real -> real, r: Answer, scale: Complex, total: real)
    requires i < |calls| && RunAnswers(calls[..i], rs, scales, norm) && Answers(calls[i], r, scale, norm, total)
    ensures RunAnswers(calls[..i + 1], rs + [r], scales + [scale], norm)
    ensures UnitAnswers(calls[..i], rs, scales, norm) && total == 1.0 ==> UnitAnswers(calls[..i + 1], rs + [r], scales + [scale], norm)
  {
    hide Answers;
    var b, c, rs', scales' := calls[..i], calls[..i + 1], rs + [r], scales + [scale];
    assert |c| == i + 1 == |rs'| == |scales'| && c[i] == calls[i] && forall k :: 0 <= k < i ==> c[k] == b[k];
    assert AnswersSome(c[i], rs'[i], scales'[i], norm);
    hide AnswersSome;
  }

  /** Any sequence of calls. Where rounding decides nothing in any of them, the logical state is the old one and then what
      they ask for, in order. On the grid it decides nothing, and Clifford calls on Clifford gates stay there. */
  method PlayCalls(sim: Simulator, calls: seq<Call>, norm: real -> real)
    returns (rs: seq<Answer>, ghost scales: seq<Complex>, ghost met: seq<States>)
    requires sim.Valid() && Quiet(sim.qubits) && forall c :: c in calls ==> ValidCall(c)
    modifies sim`applied, sim`qubits, sim`state, sim`fine, sim`composed, sim.queue, sim.state, sim.state.data
    ensures sim.Valid() && fresh(sim.Repr() - old(sim.Repr())) && Quiet(sim.qubits) && old(sim.composed) <= sim.composed
    ensures |rs| == |scales| == |calls| && RunAnswers(calls, rs, scales, norm) && |met| == |calls|
    ensures if calls == [] then sim.qubits == old(sim.qubits) else met[0] == old(sim.qubits)
    ensures old(sim.Total()) == 1.0 && IsNormalising(norm) ==> sim.Total() == 1.0 && UnitAnswers(calls, rs, scales, norm)
    ensures AllDecide(sim.h, sim.numeric, sim.prec, met, calls) ==>
      Same(sim.h, old(sim.Logical()) + AllAsked(sim.h, calls, rs, scales), sim.Logical())
    ensures sim.fine ==> AllDecide(sim.h, sim.numeric, sim.prec, met, calls)
    ensures sim.fine ==
      (old(sim.fine) && AllFineCalls(sim.prec, calls) && NewWell(sim.h, sim.numeric, sim.prec, old(sim.composed), sim.composed))
    ensures old(sim.fine) && AllClifford(old(sim.qubits)) && AllCliffordCalls(sim.prec, calls) ==> sim.fine
  {
    hide Simulator.Valid, Simulator.Logical, Simulator.Total, S.Statevector.Contents, Same, Denotes, Asked, AllAsked, Answers, RunAnswers,
      UnitAnswers, Quiet, ValidCall, NewWell, CallFine, CallClifford, AllFineCalls, AllCliffordCalls, AllClifford, Sharp, IsCircle,
      IsLevel, Decides, AllDecide, IsNormalising;
    rs, scales, met := [], [], [];
    ghost var was, all := sim.Logical(), sim.composed;
    NothingAsked(sim, was, calls[..0], all, norm);
    sim.Sound();
    SharpAtLeast2(sim.prec, sim.qubits, sim.queue.ops);
    for i := 0 to |calls|
      invariant sim.Valid() && fresh(sim.Repr() - old(sim.Repr())) && Quiet(sim.qubits) && all <= sim.composed
      invariant RunAnswers(calls[..i], rs, scales, norm) && |rs| == |scales| == |met| == i
      invariant if i == 0 then sim.qubits == old(sim.qubits) else met[0] == old(sim.qubits)
      invariant old(sim.Total()) == 1.0 && IsNormalising(norm) ==> sim.Total() == 1.0 && UnitAnswers(calls[..i], rs, scales, norm)
      invariant AllDecide(sim.h, sim.numeric, sim.prec, met, calls[..i]) ==>
        Same(sim.h, was + AllAsked(sim.h, calls[..i], rs, scales), sim.Logical())
      invariant sim.fine ==> AllDecide(sim.h, sim.numeric, sim.prec, met, calls[..i])
      invariant sim.fine == (old(sim.fine) && AllFineCalls(sim.prec, calls[..i]) && NewWell(sim.h, sim.numeric, sim.prec, all, sim.composed))
      invariant AllClifford(old(sim.qubits)) && AllCliffordCalls(sim.prec, calls[..i]) ==>
        AllClifford(sim.qubits) && NewWell(sim.h, sim.numeric, sim.prec, all, sim.composed)
    {
      ghost var before, sofar, some, m := sim.Logical(), AllAsked(sim.h, calls[..i], rs, scales), sim.composed, sim.qubits;
      ghost var total := sim.Total();
      assert calls[i] in calls;
      var r;
      ghost var scale;
      r, scale := Make(sim, calls[i], norm);
      AskedNext(sim.h, calls, i, rs, scales, r, scale);
      AnswersNext(calls, i, rs, scales, norm, r, scale, total);
      CallsNext(sim.prec, calls, i);
      DecideNext(sim.h, sim.numeric, sim.prec, met, m, calls, i);
      NewWellJoin(sim.h, sim.numeric, sim.prec, all, some, sim.composed);
      if AllDecide(sim.h, sim.numeric, sim.prec, met + [m], calls[..i + 1]) {
        ThenAsked(sim.h, was, before, sofar, sim.Logical(), Asked(sim.h, calls[i], r, scale));
      }
      rs, scales, met := rs + [r], scales + [scale], met + [m];
    }
    assert calls[..|calls|] == calls;
    if sim.prec >= 2 {
      CliffordsAreFine(sim.prec, calls);
    }
  }

  /** The same, and then a flush: the stored vector has gone through immediate execution of the calls, with the turns that
      rounding phases off the grid has added to the queued operations; on the grid, none. */
  method Play(sim: Simulator, calls: seq<Call>, norm: real -> real)
    returns (rs: seq<Answer>, ghost scales: seq<Complex>, ghost met: seq<States>)
    requires sim.Valid() && Quiet(sim.qubits) && forall c :: c in calls ==> ValidCall(c)
    modifies sim`applied, sim`qubits, sim`state, sim`fine, sim`composed, sim.queue, sim.state, sim.state.data
    ensures sim.Valid() && fresh(sim.Repr() - old(sim.Repr())) && sim.qubits == map[] && sim.queue.ops == []
    ensures |rs| == |scales| == |calls| && RunAnswers(calls, rs, scales, norm) && |met| == |calls| + 1 && met[0] == old(sim.qubits)
    ensures old(sim.Total()) == 1.0 && IsNormalising(norm) ==> sim.Total() == 1.0 && UnitAnswers(calls, rs, scales, norm)
    ensures Denotes(sim.h, sim.state.Contents(), sim.start, sim.applied) && IsDrifting(sim.prec, sim.applied)
    ensures AllDecide(sim.h, sim.numeric, sim.prec, met[..|calls|], calls) && AllPlain(sim.prec, met[|calls|]) ==>
      Same(sim.h, old(sim.Logical()) + AllAsked(sim.h, calls, rs, scales), Clean(sim.applied))
    ensures sim.fine ==> Denotes(sim.h, sim.state.Contents(), sim.start, old(sim.Logical()) + AllAsked(sim.h, calls, rs, scales))
    ensures old(sim.composed) <= sim.composed
    ensures sim.fine ==
      (old(sim.fine) && AllFineCalls(sim.prec, calls) && NewWell(sim.h, sim.numeric, sim.prec, old(sim.composed), sim.composed))
    ensures old(sim.fine) && AllClifford(old(sim.qubits)) && AllCliffordCalls(sim.prec, calls) ==> sim.fine
  {
    hide Simulator.Valid, Simulator.Logical, Simulator.Total, S.Statevector.Contents, Same, Denotes, AllAsked, RunAnswers, UnitAnswers,
      Quiet, NewWell, AllFineCalls, AllCliffordCalls, AllClifford, Sharp, IsCircle, IsLevel, IsDrifting, Clean, AllDecide, AllPlain,
      IsNormalising, ValidCall;
    rs, scales, met := PlayCalls(sim, calls, norm);
    ghost var asked, before, last := old(sim.Logical()) + AllAsked(sim.h, calls, rs, scales), sim.Logical(), sim.qubits;
    if sim.fine {
      sim.Sound();
      SharpAtLeast2(sim.prec, sim.qubits, sim.queue.ops);
      FineArePlain(sim.prec, sim.qubits);
      hide AllFine;
    }
    sim.FlushAll();
    met := met + [last];
    assert met[..|calls|] == met[..|met| - 1];
    PlayedOut(sim);
    if AllDecide(sim.h, sim.numeric, sim.prec, met[..|calls|], calls) && AllPlain(sim.prec, last) {
      SameTrans(sim.h, asked, before, sim.Logical());
      if sim.fine {
        Levelled(sim, asked);
      }
    }
  }

  lemma SharpAtLeast2(prec: nat, m: States, ops: OpSeq)
    ensures Sharp(prec, m, ops) ==> prec >= 2 && AllFine(prec, m)
  {
    hide AllFine, AllOnGrid;
  }

  lemma NothingAsked(sim: Simulator, was: Circuit, none: seq<Call>, all: seq<(U.U3, U.U3)>, norm: real -> real)
    requires none == []
    ensures Same(sim.h, was + AllAsked(sim.h, none, [], []), was)
    ensures AllFineCalls(sim.prec, none) && AllCliffordCalls(sim.prec, none) && NewWell(sim.h, sim.numeric, sim.prec, all, all)
    ensures RunAnswers(none, [], [], norm) && UnitAnswers(none, [], [], norm) && AllDecide(sim.h, sim.numeric, sim.prec, [], none)
  {
    assert was + AllAsked(sim.h, none, [], []) == was;
    SameRefl(sim.h, was);
  }

  /** With nothing waiting, the logical state is what the stored vector has gone through. */
  lemma PlayedOut(sim: Simulator)
    requires sim.Valid() && sim.qubits == map[] && sim.queue.ops == []
    ensures sim.state.n0 + sim.state.n1 <= sim.state.data.Length && sim.Logical() == Clean(sim.applied)
    ensures Denotes(sim.h, sim.state.Contents(), sim.start, sim.applied) && IsDrifting(sim.prec, sim.applied)
  {
    hide P.GoodParts, P.Vector, IsCircle, Denotes, S.Statevector.Contents, Sharp, IsLevel, IsDrifting, Clean;
    assert Gates(sim.qubits) == map[];
    var c := Clean(sim.applied);
    assert sim.Logical() == c + Queued([]) + Singles(sim.h, map[]);
    assert Queued([]) == [] && Singles(sim.h, map[]) == [];
    assert c + [] + [] == c;
  }

  /** On the grid there are no turns to clear away. */
  lemma Levelled(sim: Simulator, c: Circuit)
    requires sim.Valid() && sim.fine && sim.qubits == map[] && sim.queue.ops == [] && Same(sim.h, c, Clean(sim.applied))
    ensures sim.state.n0 + sim.state.n1 <= sim.state.data.Length && Denotes(sim.h, sim.state.Contents(), sim.start, c)
  {
    PlayedOut(sim);
    CleanLevel(sim.applied);
    sim.Sound();
    hide *;
    SameSym(sim.h, c, Clean(sim.applied));
    DenotesSame(sim.h, sim.state.Contents(), sim.start, sim.applied, c);
  }

  /** A new simulator, played: where the angles are on the grid and the floating-point path, if taken, was exact, the
      stored vector is the circuit of the calls applied to the all-zero state; so it is for every Clifford circuit. With
      normalising factors it has weight one, and all measurements answer. */
  method PlayFromZeros(prec: nat, h: Circle, numeric: U.Numeric, maxQubit: Qubit, calls: seq<Call>, norm: real -> real)
    returns (sim: Simulator, rs: seq<Answer>, ghost scales: seq<Complex>)
    requires IsCircle(h) && forall c :: c in calls ==> ValidCall(c)
    ensures sim.Valid() && fresh(sim.Repr()) && sim.qubits == map[] && sim.queue.ops == []
    ensures |rs| == |scales| == |calls| && RunAnswers(calls, rs, scales, norm)
    ensures IsNormalising(norm) ==> sim.Total() == 1.0 && UnitAnswers(calls, rs, scales, norm)
    ensures prec >= 2 && AllFineCalls(prec, calls) && NewWell(h, numeric, prec, [], sim.composed) ==>
      Denotes(h, sim.state.Contents(), ZEROS, AllAsked(h, calls, rs, scales))
    ensures prec >= 2 && AllCliffordCalls(prec, calls) ==> Denotes(h, sim.state.Contents(), ZEROS, AllAsked(h, calls, rs, scales))
  {
    hide Simulator.Valid, Simulator.Total, S.Statevector.Contents, Denotes, AllAsked, Answers, NewWell, ValidCall, AllFineCalls,
      AllCliffordCalls, IsCircle, UnitAnswers, IsNormalising, AllDecide, IsDrifting, Clean, Same;
    sim := new Simulator(prec, h, numeric, maxQubit);
    NoneWaiting(sim.qubits);
    NothingLogged(sim);
    ghost var met;
    rs, scales, met := Play(sim, calls, norm);
    assert [] + AllAsked(h, calls, rs, scales) == AllAsked(h, calls, rs, scales);
  }

  lemma NothingLogged(sim: Simulator)
    requires sim.qubits == map[] && sim.queue.ops == [] && sim.applied == []
    ensures sim.Logical() == []
  {
    assert Gates(sim.qubits) == map[];
  }
}
