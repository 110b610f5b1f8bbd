/**
 Progress of the thread pool, in both versions of the lock: whatever state has been reached, if user code ends, then the
 threads have steps that bring the scope to its return, and after `stop` steps that let everybody leave.
 */
module ThreadPoolProgress {
  import opened ThreadPool
  import opened ThreadPoolInvariant
  import opened ThreadPoolSteps
  import opened ThreadPoolRuns
  import opened ThreadPoolSpin

  // Continuations

  predicate CanStep(spins: bool, s: State, t: nat, c: Choice) {
    if spins then SpinEnabled(s, t, c) else Enabled(s, t, c)
  }

  function StepOf(spins: bool, s: State, t: nat, c: Choice): State
    requires CanStep(spins, s, t, c)
  {
    if spins then SpinStep(s, t, c) else Step(s, t, c)
  }

  /** A step that submits nothing and starts nothing: user code, where it runs, ends. */
  ghost predicate Onward(spins: bool, s: State, s': State) {
    exists t: nat, c: Choice :: c.act == Finish && CanStep(spins, s, t, c) && s' == StepOf(spins, s, t, c)
  }

  ghost predicate IsPath(spins: bool, p: seq<State>) {
    p != [] && forall i :: 0 <= i < |p| - 1 ==> Onward(spins, p[i], p[i + 1])
  }

  ghost predicate LeadsBy(spins: bool, s: State, s': State, p: seq<State>) {
    IsPath(spins, p) && p[0] == s && p[|p| - 1] == s'
  }

  ghost predicate Leads(spins: bool, s: State, s': State) {
    exists p :: LeadsBy(spins, s, s', p)
  }

  lemma LeadsNowhere(spins: bool, s: State)
    ensures Leads(spins, s, s)
  {
    assert LeadsBy(spins, s, s, [s]);
  }

  lemma LeadsAfter(spins: bool, s: State, t: nat, c: Choice, s': State)
    requires c.act == Finish && CanStep(spins, s, t, c) && Leads(spins, StepOf(spins, s, t, c), s')
    ensures Leads(spins, s, s')
  {
    hide CanStep, StepOf;
    var s1 := StepOf(spins, s, t, c);
    assert Onward(spins, s, s1);
    hide Onward;
    var p :| LeadsBy(spins, s1, s', p);
    var q := [s] + p;
    forall i | 0 <= i < |q| - 1 ensures Onward(spins, q[i], q[i + 1]) {
      assert i > 0 ==> Onward(spins, p[i - 1], p[i - 1 + 1]);
    }
    assert LeadsBy(spins, s, s', q);
  }

  lemma {:induction false} LeadsOn(spins: bool, s: State, s1: State, s': State)
    requires Leads(spins, s, s1) && Leads(spins, s1, s')
    ensures Leads(spins, s, s')
  {
    hide Onward;
    var p :| LeadsBy(spins, s, s1, p);
    var q :| LeadsBy(spins, s1, s', q);
    var r := p + q[1..];
    forall i | 0 <= i < |r| - 1 ensures Onward(spins, r[i], r[i + 1]) {
      if i < |p| - 1 {
        assert Onward(spins, p[i], p[i + 1]);
      } else {
        var k := i - (|p| - 1);
        assert Onward(spins, q[k], q[k + 1]);
      }
    }
    assert LeadsBy(spins, s, s', r);
  }

  // What continuations keep

  /** A reachable state of the version. */
  ghost predicate Fits(spins: bool, s: State) {
    Inv(s) && (spins ==> Calm(s))
  }

  /** The pool is in use. */
  predicate Running(s: State) {
    !s.stopped && |s.pcs| > 0 && !s.pcs[0].StopStore?
  }

  lemma StepFits(spins: bool, s: State, t: nat, c: Choice)
    requires Fits(spins, s) && CanStep(spins, s, t, c)
    ensures Fits(spins, StepOf(spins, s, t, c))
  {
    hide Inv, Calm, SpinStep, Step, Enabled, Sleeps;
    if spins {
      SpinIsStep(s, t, c);
      SpinStaysCalm(s, t, c);
      var c' := First(t, c);
      StepKeeps(s, t, c');
      if SpinStep(s, t, c) != Step(s, t, c') {
        StepKeeps(Step(s, t, c'), t, c');
      }
    } else {
      StepKeeps(s, t, c);
    }
  }

  // How far there is to go

  function Size(w: Work): nat {
    match w
    case Simple(_) => 8
    case Multi(items) => 8 * |items| + 1
  }

  function StackSize(s: seq<Work>): nat {
    if s == [] then 0 else StackSize(s[..|s| - 1]) + Size(s[|s| - 1])
  }

  predicate Acquiring(p: PC) {
    p.LockLoad? || p.LockCas? || p.SlowTry? || p.SlowWait? || p.SlowLoad?
  }

  function RankOfWant(k: Want): nat {
    match k
    case Push(task, _) => 13 + Size(task)
    case RunAll => 5
  }

  /** What is left for the thread to do before it rests. */
  function Rank(p: PC): nat {
    if p.Holding? then RankOfWant(p.k)
    else if Acquiring(p) then 1 + RankOfWant(p.k)
    else if p.SlowAsleep? then 2 + RankOfWant(p.k)
    else match p
      case User => 8
      case Closure => 8
      case UnlockWakeWork(_) => 9
      case UnlockWakeLock(_, _) => 10
      case UnlockSwap(_, _, _) => 11
      case UnlockLoad(_, _) => 12
      case IdleLoad => 4
      case IdleSwap(_) => 3
      case IdleWakeLock(_) => 2
      case IdleWakeMain(_) => 1
      case _ => 0
  }

  function Ranks(f: PC -> nat, pcs: seq<PC>): nat {
    if pcs == [] then 0 else Ranks(f, pcs[..|pcs| - 1]) + f(pcs[|pcs| - 1])
  }

  lemma {:induction false} RanksUpdate(f: PC -> nat, pcs: seq<PC>, t: nat, p: PC)
    requires t < |pcs|
    ensures Ranks(f, pcs[t := p]) == Ranks(f, pcs) - f(pcs[t]) + f(p)
    ensures Ranks(f, pcs) >= f(pcs[t])
    decreases |pcs|
  {
    var n := |pcs| - 1;
    if t == n {
      assert pcs[t := p][..n] == pcs[..n];
    } else {
      RanksUpdate(f, pcs[..n], t, p);
      assert pcs[t := p][..n] == pcs[..n][t := p];
    }
  }

  lemma {:induction false} RanksZero(f: PC -> nat, pcs: seq<PC>)
    requires forall i :: 0 <= i < |pcs| ==> f(pcs[i]) == 0
    ensures Ranks(f, pcs) == 0
    decreases |pcs|
  {
    if pcs != [] {
      RanksZero(f, pcs[..|pcs| - 1]);
    }
  }

  lemma {:induction false} RanksLess(f: PC -> nat, pcs: seq<PC>, qs: seq<PC>)
    requires |pcs| == |qs| && forall i :: 0 <= i < |pcs| ==> f(qs[i]) <= f(pcs[i])
    ensures Ranks(f, qs) <= Ranks(f, pcs)
    decreases |pcs|
  {
    if pcs != [] {
      RanksLess(f, pcs[..|pcs| - 1], qs[..|qs| - 1]);
    }
  }

  const RankOf: PC -> nat := (p: PC) => Rank(p)

  function Potential(s: State): nat {
    Ranks(RankOf, s.pcs) + StackSize(s.stack)
  }

  /** The choice that lets things end, waking somebody if there is anybody to wake. */
  ghost function Ending(s: State, t: nat): (c: Choice)
    requires t < |s.pcs|
    ensures c.act == Finish && c.spin && !c.casFails
    ensures Picks(s, c.who, if s.pcs[t].UnlockWakeWork? then IdleSleeper else LockSleeper)
  {
    Choice(Finish, true, false, if s.pcs[t].UnlockWakeWork? then Chosen(s, IdleSleeper) else Chosen(s, LockSleeper))
  }

  predicate MayGo(p: PC) {
    !Asleep(p) && !p.Exited? && !p.Stopped? && !p.Outside?
  }

  /** A thread that is neither asleep nor at rest can go on. */
  lemma CanGoOn(spins: bool, s: State, t: nat)
    requires Fits(spins, s) && t < |s.pcs|
    requires MayGo(s.pcs[t])
    ensures CanStep(spins, s, t, Ending(s, t))
  {
    ThreadAt(s, t);
    hide Inv;
  }

  lemma Lower(s: State, s': State, t: nat)
    requires t < |s.pcs| && t < |s'.pcs| && s'.pcs == s.pcs[t := s'.pcs[t]]
    requires StackSize(s'.stack) + Rank(s'.pcs[t]) < StackSize(s.stack) + Rank(s.pcs[t])
    ensures Potential(s') < Potential(s)
  {
    RanksUpdate(RankOf, s.pcs, t, s'.pcs[t]);
    hide Rank, StackSize;
  }

  /** The thread runs, or has the lock, and does not wake anybody. */
  predicate Working(p: PC) {
    p.User? || p.Closure? || p.UnlockLoad? || p.UnlockSwap? || p.IdleLoad? || p.IdleSwap?
  }

  predicate Waking(p: PC) {
    p.UnlockWakeLock? || p.UnlockWakeWork? || p.IdleWakeLock? || p.IdleWakeMain?
  }

  lemma WorkLowers(spins: bool, s: State, t: nat)
    requires t < |s.pcs| && Working(s.pcs[t]) && CanStep(spins, s, t, Ending(s, t))
    ensures Potential(StepOf(spins, s, t, Ending(s, t))) < Potential(s)
  {
    hide Tag, Base, Idle, StepRunAll, FastSeen, SpinSeen, IdleSeen, Picks;
    var c := Ending(s, t);
    var s' := StepOf(spins, s, t, c);
    assert s'.stack == s.stack && s'.pcs == s.pcs[t := s'.pcs[t]] && Rank(s'.pcs[t]) < Rank(s.pcs[t]);
    hide *;
    Lower(s, s', t);
  }

  lemma StackSizeSnoc(rest: seq<Work>, w: Work)
    ensures StackSize(rest + [w]) == StackSize(rest) + Size(w)
  {
    assert (rest + [w])[..|rest|] == rest;
  }

  lemma HeldLowers(spins: bool, s: State, t: nat)
    requires t < |s.pcs| && s.pcs[t].Holding? && CanStep(spins, s, t, Ending(s, t))
    ensures Potential(StepOf(spins, s, t, Ending(s, t))) < Potential(s)
  {
    var c := Ending(s, t);
    var s' := StepOf(spins, s, t, c);
    assert s' == match s.pcs[t].k
                 case Push(w, a) => s.(stack := s.stack + [w]).At(t, UnlockLoad(true, a))
                 case RunAll => StepRunAll(s, t);
    hide StepOf, CanStep;
    match s.pcs[t].k
    case Push(w, a) =>
      StackSizeSnoc(s.stack, w);
      hide StackSize;
      Lower(s, s', t);
    case RunAll =>
      if s.stack == [] {
        Lower(s, s', t);
      } else {
        TakeLowers(s, s', t);
      }
  }

  lemma TakeLowers(s: State, s': State, t: nat)
    requires t < |s.pcs| == |s.jobs| && s.pcs[t] == Holding(RunAll) && s.stack != [] && s' == StepRunAll(s, t)
    ensures Potential(s') < Potential(s)
  {
    TakeShape(s, s', t);
    TakeSize(s.stack, s'.stack);
    hide *;
    Lower(s, s', t);
  }

  /** Either a unit has been taken, or an exhausted task. */
  lemma TakeShape(s: State, s': State, t: nat)
    requires t < |s.pcs| == |s.jobs| && s.pcs[t] == Holding(RunAll) && s.stack != [] && s' == StepRunAll(s, t)
    ensures t < |s'.pcs| && s'.pcs == s.pcs[t := s'.pcs[t]] && s'.stack == Taken(s.stack) && Rank(s.pcs[t]) == 5
    ensures Rank(s'.pcs[t]) == if s.stack[|s.stack| - 1] == Multi([]) then 5 else 12
  {
    hide Size;
  }

  function Taken(stack: seq<Work>): seq<Work>
    requires stack != []
  {
    var rest, w := stack[..|stack| - 1], stack[|stack| - 1];
    if w.Multi? && w.items != [] then rest + [Multi(w.items[1..])] else rest
  }

  lemma TakeSize(stack: seq<Work>, stack': seq<Work>)
    requires stack != [] && stack' == Taken(stack)
    ensures StackSize(stack') + (if stack[|stack| - 1] == Multi([]) then 1 else 8) == StackSize(stack)
  {
    var rest, w := stack[..|stack| - 1], stack[|stack| - 1];
    SizeTaken(w);
    if w.Multi? && w.items != [] {
      StackSizeSnoc(rest, Multi(w.items[1..]));
    }
  }

  lemma SizeTaken(w: Work)
    ensures match w
      case Simple(_) => Size(w) == 8
      case Multi(items) => if items == [] then Size(w) == 1 else Size(w) == Size(Multi(items[1..])) + 8
  {
  }

  lemma WokenLower(s: State, u: nat, asleep: PC -> bool)
    requires u < |s.pcs|
    ensures Potential(Woken(s, u, asleep)) <= Potential(s)
  {
    RanksUpdate(RankOf, s.pcs, u, Roused(s.pcs[u]));
  }

  lemma WakeLowers(s: State, t: nat)
    requires t < |s.pcs| && Waking(s.pcs[t]) && Enabled(s, t, Ending(s, t))
    ensures Potential(Step(s, t, Ending(s, t))) < Potential(s)
  {
    var c, p := Ending(s, t), s.pcs[t];
    var u, asleep := if p.IdleWakeMain? then 0 else c.who, if p.UnlockWakeWork? || p.IdleWakeMain? then IdleSleeper else LockSleeper;
    WakeStays(s, t, u, asleep);
    WakeIs(s, t, c, u, asleep);
    hide *;
    WokenLower(s, u, asleep);
    Lower(Woken(s, u, asleep), Step(s, t, c), t);
  }

  lemma WakeStays(s: State, t: nat, u: nat, asleep: PC -> bool)
    requires t < |s.pcs| && u < |s.pcs| && !asleep(s.pcs[t])
    ensures var w := Woken(s, u, asleep); |w.pcs| == |s.pcs| && w.pcs[t] == s.pcs[t] && w.stack == s.stack
  {
  }

  lemma WakeIs(s: State, t: nat, c: Choice, u: nat, asleep: PC -> bool)
    requires t < |s.pcs| && Waking(s.pcs[t]) && Enabled(s, t, c) && u == (if s.pcs[t].IdleWakeMain? then 0 else c.who)
    requires asleep == if s.pcs[t].UnlockWakeWork? || s.pcs[t].IdleWakeMain? then IdleSleeper else LockSleeper
    ensures u < |s.pcs| && |Woken(s, u, asleep).pcs| == |s.pcs|
    ensures var s', w := Step(s, t, c), Woken(s, u, asleep);
      && t < |s'.pcs| && s'.pcs == w.pcs[t := s'.pcs[t]] && s'.stack == w.stack && Rank(s'.pcs[t]) < Rank(s.pcs[t])
      && s'.stopped == s.stopped && !s'.pcs[t].StopStore?
  {
    assert u < |s.pcs|;
    hide Tag, Base, Idle, Picks, StepRunAll, FastSeen, IdleSeen, StepUser;
  }

  /** The spinning version wakes nobody. */
  lemma WakingSleeps(spins: bool, s: State, t: nat, c: Choice)
    requires t < |s.pcs| && Waking(s.pcs[t]) && CanStep(spins, s, t, c)
    ensures !spins && Enabled(s, t, c) && StepOf(spins, s, t, c) == Step(s, t, c)
  {
    hide Enabled, Step;
  }

  /** How many steps a thread that is alone in asking for the free lock is away from it. */
  function Distance(p: PC, word: nat): nat {
    match p
    case LockCas(_, v) => if v == word then 1 else 2
    case SlowTry(_, v) => if v == word then 1 else if Tag(v) == 3 then 4 else 2
    case SlowWait(_, _) => 3
    case _ => 2
  }

  /** The thread gets the lock, or one step closer to it. */
  predicate Closer(s: State, s': State, t: nat)
    requires t < |s.pcs| && Acquiring(s.pcs[t])
  {
    var p := s.pcs[t];
    if Distance(p, s.word) == 1 then s' == s.(word := s'.word).At(t, Holding(p.k))
    else t < |s'.pcs| && s' == s.At(t, s'.pcs[t]) && Acquiring(s'.pcs[t]) && s'.pcs[t].k == p.k
         && Distance(s'.pcs[t], s.word) < Distance(p, s.word)
  }

  lemma AcquireStep(spins: bool, s: State, t: nat)
    requires Fits(spins, s) && t < |s.pcs| && Acquiring(s.pcs[t]) && !Locked(s.word) && CanStep(spins, s, t, Ending(s, t))
    ensures Closer(s, StepOf(spins, s, t, Ending(s, t)), t)
  {
    ThreadAt(s, t);
    var p := s.pcs[t];
    assert p.SlowWait? ==> Tag(p.v) == 3;
    hide Inv, Closer, Step, SpinStep;
    if p.LockLoad? || p.LockCas? {
      FastAcquires(spins, s, t);
    } else {
      SlowAcquires(s, t);
    }
  }

  lemma FastAcquires(spins: bool, s: State, t: nat)
    requires t < |s.pcs| && (s.pcs[t].LockLoad? || s.pcs[t].LockCas?) && !Locked(s.word) && CanStep(spins, s, t, Ending(s, t))
    ensures Closer(s, StepOf(spins, s, t, Ending(s, t)), t)
  {
    hide Locked, Tag, Base, Idle, Picks, StepRunAll, StepUser, IdleSeen, SpinSeen;
  }

  lemma SlowAcquires(s: State, t: nat)
    requires t < |s.pcs| && !Locked(s.word) && Enabled(s, t, Ending(s, t))
    requires s.pcs[t].SlowTry? || s.pcs[t].SlowLoad? || (s.pcs[t].SlowWait? && Tag(s.pcs[t].v) == 3)
    ensures Closer(s, Step(s, t, Ending(s, t)), t)
  {
    assert Tag(s.word) != 3;
    hide Tag, Base, Idle, Picks, StepRunAll, StepUser, IdleSeen, FastSeen;
  }

  /** A thread that asks for the free lock gets it, if the others wait. */
  lemma {:induction false} Acquires(spins: bool, s: State, t: nat) returns (s': State)
    requires Fits(spins, s) && Running(s) && t < |s.pcs| && Acquiring(s.pcs[t]) && !Locked(s.word)
    ensures Leads(spins, s, s') && Fits(spins, s') && Running(s') && Potential(s') < Potential(s)
    decreases Distance(s.pcs[t], s.word)
  {
    hide *;
    AcquiringMayGo(s.pcs[t]);
    var c := GoesOn(spins, s, t);
    var s1 := StepOf(spins, s, t, c);
    AcquireStep(spins, s, t);
    AcquireMoves(s, s1, t);
    if Distance(s.pcs[t], s.word) == 1 {
      s' := s1;
      LeadsNowhere(spins, s1);
    } else {
      s' := Acquires(spins, s1, t);
    }
    LeadsAfter(spins, s, t, c, s');
  }

  lemma AcquiringMayGo(p: PC)
    ensures Acquiring(p) ==> MayGo(p)
  {
  }

  lemma AcquireMoves(s: State, s1: State, t: nat)
    requires t < |s.pcs| && Acquiring(s.pcs[t]) && Running(s) && Closer(s, s1, t)
    ensures Running(s1) && t < |s1.pcs|
    ensures if Distance(s.pcs[t], s.word) == 1 then Potential(s1) < Potential(s)
      else s1.word == s.word && Acquiring(s1.pcs[t]) && Distance(s1.pcs[t], s1.word) < Distance(s.pcs[t], s.word)
           && Potential(s1) == Potential(s)
  {
    hide StackSize, RankOfWant, Distance;
    RanksUpdate(RankOf, s.pcs, t, s1.pcs[t]);
  }

  /** The step that lets things end keeps what has to be kept. */
  lemma GoesOn(spins: bool, s: State, t: nat) returns (c: Choice)
    requires Fits(spins, s) && Running(s) && t < |s.pcs|
    requires MayGo(s.pcs[t])
    ensures c == Ending(s, t) && c.act == Finish && CanStep(spins, s, t, c)
    ensures Fits(spins, StepOf(spins, s, t, c))
  {
    c := Ending(s, t);
    CanGoOn(spins, s, t);
    StepFits(spins, s, t, c);
    hide *;
  }

  lemma StillRunning(spins: bool, s: State, t: nat, c: Choice)
    requires Inv(s) && Running(s) && t < |s.pcs| && MayGo(s.pcs[t]) && c.act == Finish && CanStep(spins, s, t, c)
    ensures Running(StepOf(spins, s, t, c))
  {
    ThreadAt(s, t);
    hide Inv, Step, SpinStep, Enabled, Sleeps, MayGo, RoleOk, ValueOk;
    StepStaysInUse(s, t, c);
    if spins {
      SpinStaysInUse(s, t, c);
    }
  }

  lemma StepStaysInUse(s: State, t: nat, c: Choice)
    requires t < |s.pcs| && Running(s) && Enabled(s, t, c) && c.act == Finish && (s.pcs[t].StopStore? ==> t == 0)
    ensures Running(Step(s, t, c))
  {
    var p := s.pcs[t];
    if Waking(p) {
      WakeIs(s, t, c, if p.IdleWakeMain? then 0 else c.who, if p.UnlockWakeWork? || p.IdleWakeMain? then IdleSleeper else LockSleeper);
      hide Step, Rank;
    } else {
      hide Tag, Base, Idle, Locked, Contended, Picks, FastSeen, IdleSeen, IdleEntered, StepUser, StepRunAll, Woken,
        Return;
      UserStaysInUse(s, t, c);
      PlacesInUse(s, t, c);
      if p.Holding? {
        TakeStaysInUse(s, t);
      }
    }
  }

  lemma SpinStaysInUse(s: State, t: nat, c: Choice)
    requires t < |s.pcs| && SpinEnabled(s, t, c) && Running(s) && Running(Step(s, t, c)) && (s.pcs[t].StopStore? ==> t == 0)
    ensures Running(SpinStep(s, t, c))
  {
    hide Tag, Base, Idle, Locked, Contended, Picks, SpinSeen, Step, Return, ThreadPoolSpin.Unlocked, Enabled;
    PlacesInUse(s, t, c);
  }

  lemma UserStaysInUse(s: State, t: nat, c: Choice)
    requires Running(s) && t < |s.pcs| == |s.jobs|
    ensures Running(StepUser(s, t, c, ToClosure)) && (s.jobs[t].Some? ==> Running(StepUser(s, t, c, ToUser)))
  {
  }

  lemma TakeStaysInUse(s: State, t: nat)
    requires Running(s) && t < |s.pcs| == |s.jobs|
    ensures Running(StepRunAll(s, t))
  {
  }

  /** What the functions that say where the code goes never answer. */
  lemma PlacesInUse(s: State, t: nat, c: Choice)
    requires t < |s.pcs| && Running(s)
    ensures forall k, v :: !FastSeen(k, v, c.spin).StopStore?
    ensures forall v :: !IdleSeen(t, v).StopStore? && !SpinSeen(t, v).StopStore? && !IdleEntered(t, |s.pcs|, v).StopStore?
    ensures forall a :: !Return(a).StopStore?
  {
    hide Tag, Locked, Contended, Idle;
  }

  /** The thread has something to do that does not depend on the lock being free. */
  predicate Busy(p: PC) {
    Holds(p) || Working(p) || Waking(p)
  }

  lemma BusyLowers(spins: bool, s: State, t: nat) returns (s': State)
    requires Fits(spins, s) && Running(s) && t < |s.pcs| && Busy(s.pcs[t])
    ensures Leads(spins, s, s') && Fits(spins, s') && Running(s') && Potential(s') < Potential(s)
  {
    BusyMayGo(s.pcs[t]);
    var p := s.pcs[t];
    hide *;
    var c := GoesOn(spins, s, t);
    s' := StepOf(spins, s, t, c);
    if Working(p) {
      WorkLowers(spins, s, t);
    } else if Waking(p) {
      WakingSleeps(spins, s, t, c);
      WakeLowers(s, t);
    } else {
      HeldLowers(spins, s, t);
    }
    StillRunning(spins, s, t, c);
    LeadsNowhere(spins, s');
    LeadsAfter(spins, s, t, c, s');
  }

  lemma BusyMayGo(p: PC)
    ensures Busy(p) ==> MayGo(p) && (p.Holding? || Working(p) || Waking(p))
  {
  }

  /** With nobody busy, nobody asking for the lock, and thread 0 not back yet, everybody waits on the word that says so. */
  lemma AllWait(s: State)
    requires Inv(s) && Running(s) && !s.pcs[0].Outside?
    requires forall t :: 0 <= t < |s.pcs| ==> !Busy(s.pcs[t]) && !Acquiring(s.pcs[t])
    ensures s.word == 4 * |s.pcs| && IsIdle(s.pcs[0]) && !s.pcs[0].IdleAsleep?
  {
    CountBounds(Holds, s.pcs);
    CountBounds(IsIdle, s.pcs);
    assert !Locked(s.word);
    forall t | 0 <= t < |s.pcs| ensures IsIdle(s.pcs[t]) {
      ThreadAt(s, t);
    }
  }

  /** How many steps thread 0 is away from returning, once everybody waits. */
  function HomeDistance(p: PC, n: nat): nat {
    match p
    case MainStore(_) => 1
    case IdleSpin(v) => if v == 4 * n then 2 else 4
    case IdleWait(_) => 4
    case _ => 3
  }

  predicate Homebound(s: State) {
    |s.pcs| > 0 && s.word == 4 * |s.pcs|
    && (s.pcs[0].MainStore? || s.pcs[0].IdleSpin? || s.pcs[0].IdleWait? || s.pcs[0].IdleReload? || s.pcs[0].IdleCas?)
  }

  lemma HomeStep(spins: bool, s: State)
    requires Fits(spins, s) && Homebound(s) && CanStep(spins, s, 0, Ending(s, 0))
    ensures var s', n := StepOf(spins, s, 0, Ending(s, 0)), |s.pcs|;
      |s'.pcs| > 0 &&
      if HomeDistance(s.pcs[0], n) == 1 then s'.pcs[0].Outside?
      else Homebound(s') && |s'.pcs| == n && HomeDistance(s'.pcs[0], n) < HomeDistance(s.pcs[0], n)
  {
    ThreadAt(s, 0);
    assert Tag(s.word) == 0 && (s.pcs[0].IdleCas? ==> Tag(s.pcs[0].v) == 2);
    assert s.pcs[0].IdleWait? ==> s.pcs[0].v != s.word;
    assert IdleSeen(0, s.word) == SpinSeen(0, s.word) == IdleSpin(s.word);
    hide Inv, ThreadOk, Picks, Tag, Base, Idle, Locked, Contended, StepRunAll, StepUser, FastSeen, IdleSeen, SpinSeen,
      Woken;
  }

  lemma {:induction false} GoesHome(spins: bool, s: State) returns (s': State)
    requires Fits(spins, s) && Running(s) && Homebound(s)
    ensures Leads(spins, s, s') && Fits(spins, s') && Running(s') && s'.pcs[0].Outside?
    decreases HomeDistance(s.pcs[0], |s.pcs|)
  {
    HomeMayGo(s);
    hide *;
    var c := GoesOn(spins, s, 0);
    var s1 := StepOf(spins, s, 0, c);
    HomeStep(spins, s);
    StillRunning(spins, s, 0, c);
    if HomeDistance(s.pcs[0], |s.pcs|) == 1 {
      s' := s1;
      LeadsNowhere(spins, s1);
    } else {
      s' := GoesHome(spins, s1);
    }
    LeadsAfter(spins, s, 0, c, s');
  }

  lemma HomeMayGo(s: State)
    requires Homebound(s)
    ensures |s.pcs| > 0 && MayGo(s.pcs[0])
  {
  }

  /** While the pool is in use, thread 0 can come back. */
  lemma {:induction false} ComesBack(spins: bool, s: State) returns (s': State)
    requires Fits(spins, s) && Running(s)
    ensures Leads(spins, s, s') && Fits(spins, s') && Running(s') && s'.pcs[0].Outside?
    decreases Potential(s)
  {
    hide Leads, Potential, Inv, Calm, Holds, Working, Waking, IsIdle;
    if s.pcs[0].Outside? {
      s' := s;
      LeadsNowhere(spins, s);
    } else if t: nat :| t < |s.pcs| && Busy(s.pcs[t]) {
      var s1 := BusyLowers(spins, s, t);
      s' := ComesBack(spins, s1);
      LeadsOn(spins, s, s1, s');
    } else if t: nat :| t < |s.pcs| && Acquiring(s.pcs[t]) {
      NotLocked(s);
      var s1 := Acquires(spins, s, t);
      s' := ComesBack(spins, s1);
      LeadsOn(spins, s, s1, s');
    } else {
      AllWait(s);
      Home(spins, s);
      s' := GoesHome(spins, s);
    }
  }

  lemma NotLocked(s: State)
    requires Inv(s) && Running(s) && forall t :: 0 <= t < |s.pcs| ==> !Busy(s.pcs[t])
    ensures !Locked(s.word)
  {
    CountBounds(Holds, s.pcs);
  }

  lemma Home(spins: bool, s: State)
    requires Inv(s) && Running(s) && !Busy(s.pcs[0]) && IsIdle(s.pcs[0]) && !s.pcs[0].IdleAsleep? && s.word == 4 * |s.pcs|
    ensures Homebound(s)
  {
    ThreadAt(s, 0);
  }

  // Leaving

  function LeaveRank(p: PC): nat {
    match p
    case IdleWakeLock(_) => 4
    case IdleWakeMain(_) => 3
    case IdleSpin(_) => 2
    case IdleWait(_) => 2
    case IdleAsleep => 2
    case IdleReload => 1
    case IdleCas(_) => 1
    case StopWake => 1
    case _ => 0
  }

  const LeaveRankOf: PC -> nat := (p: PC) => LeaveRank(p)

  lemma {:induction false} LeavesAll(spins: bool, s: State) returns (s': State)
    requires Fits(spins, s) && s.stopped
    ensures Leads(spins, s, s') && Finished(s')
    decreases Ranks(LeaveRankOf, s.pcs)
  {
    ThreadAt(s, 0);
    hide Leads, Inv, Calm, RoleOk, ValueOk, Ranks, LeaveRankOf;
    if Finished(s) {
      s' := s;
      LeadsNowhere(spins, s);
    } else {
      var t := NotLeft(s);
      var c := Ending(s, t);
      CanGoOn(spins, s, t);
      StepFits(spins, s, t, c);
      LeaveStep(spins, s, t);
      s' := LeavesAll(spins, StepOf(spins, s, t, c));
      LeadsAfter(spins, s, t, c, s');
    }
  }

  /** Thread 0 first. */
  lemma NotLeft(s: State) returns (t: nat)
    requires Inv(s) && s.stopped && !Finished(s)
    ensures t < |s.pcs| && MayGo(s.pcs[t])
    ensures s.pcs[t].StopWake? || (t != 0 && IsIdle(s.pcs[t]) && !s.pcs[t].Exited? && !s.pcs[t].IdleAsleep?)
  {
    if s.pcs[0].StopWake? {
      t := 0;
    } else {
      t :| 1 <= t < |s.pcs| && !s.pcs[t].Exited?;
    }
  }

  lemma LeaveStep(spins: bool, s: State, t: nat)
    requires Fits(spins, s) && s.stopped && t < |s.pcs| && CanStep(spins, s, t, Ending(s, t))
    requires s.pcs[t].StopWake? || (t != 0 && IsIdle(s.pcs[t]) && !s.pcs[t].Exited? && !s.pcs[t].IdleAsleep?)
    ensures var s' := StepOf(spins, s, t, Ending(s, t));
      s'.stopped && Ranks(LeaveRankOf, s'.pcs) < Ranks(LeaveRankOf, s.pcs)
  {
    ThreadAt(s, t);
    ThreadAt(s, 0);
    var c, p := Ending(s, t), s.pcs[t];
    if p.StopWake? {
      hide Inv, StepOf, Ending, RoleOk, ValueOk;
      AllLeave(spins, s, c);
    } else {
      assert p.IdleWakeLock? ==> !LockSleeper(s.pcs[c.who]);
      hide Inv, Picks, RoleOk, ThreadOk, ValueOk, StepOf, CanStep;
      IdleLeaves(spins, s, t, c);
      RanksUpdate(LeaveRankOf, s.pcs, t, StepOf(spins, s, t, c).pcs[t]);
    }
  }

  lemma AllLeave(spins: bool, s: State, c: Choice)
    requires |s.pcs| > 0 && s.pcs[0].StopWake? && CanStep(spins, s, 0, c)
    ensures var s' := StepOf(spins, s, 0, c); s'.stopped == s.stopped && Ranks(LeaveRankOf, s'.pcs) < Ranks(LeaveRankOf, s.pcs)
  {
    var w := WakeAll(s.pcs);
    assert !spins && StepOf(spins, s, 0, c) == s.(pcs := w[0 := Stopped]);
    hide Step, StepOf, CanStep;
    RanksLess(LeaveRankOf, s.pcs, w);
    RanksUpdate(LeaveRankOf, w, 0, Stopped);
  }

  lemma IdleLeaves(spins: bool, s: State, t: nat, c: Choice)
    requires 0 < t < |s.pcs| && s.word == 0 && CanStep(spins, s, t, c) && c.spin && !s.pcs[0].IdleAsleep?
    requires var p := s.pcs[t];
      && IsIdle(p) && !p.Exited? && !p.IdleAsleep? && !p.MainStore? && (p.IdleWait? || p.IdleCas? ==> p.v != 0)
      && (p.IdleWakeLock? ==> c.who < |s.pcs| && !LockSleeper(s.pcs[c.who]))
    ensures var s' := StepOf(spins, s, t, c);
      t < |s'.pcs| && s'.stopped == s.stopped && s'.pcs == s.pcs[t := s'.pcs[t]] && LeaveRank(s'.pcs[t]) < LeaveRank(s.pcs[t])
  {
    assert IdleSeen(t, 0) == SpinSeen(t, 0) == Exited;
    hide Picks, StepRunAll, StepUser, FastSeen, IdleSeen, SpinSeen, Tag, Idle, Base;
  }

  // In every reachable state

  lemma {:induction false} NothingSubmitted(spins: bool, p: seq<State>, i: nat)
    requires IsPath(spins, p) && i < |p|
    ensures p[i].submitted == p[0].submitted
  {
    hide Onward;
    if i > 0 {
      NothingSubmitted(spins, p, i - 1);
      assert Onward(spins, p[i - 1], p[i - 1 + 1]);
      SubmitsNothing(spins, p[i - 1], p[i]);
    }
  }

  lemma SubmitsNothing(spins: bool, s: State, s': State)
    requires Onward(spins, s, s')
    ensures s'.submitted == s.submitted
  {
    hide Tag, Base, Idle, Locked, Contended, Picks, FastSeen, IdleSeen, SpinSeen, IdleEntered;
  }

  lemma LeadsSubmitsNothing(spins: bool, s: State, s': State)
    requires Leads(spins, s, s')
    ensures s'.submitted == s.submitted
  {
    hide IsPath;
    var p :| LeadsBy(spins, s, s', p);
    PathNotEmpty(spins, p);
    NothingSubmitted(spins, p, |p| - 1);
  }

  lemma PathNotEmpty(spins: bool, p: seq<State>)
    requires IsPath(spins, p)
    ensures p != []
  {
    hide Onward;
  }

  lemma StopsNext(spins: bool, s: State, c: Choice)
    requires |s.pcs| > 0 && s.pcs[0].StopStore? && CanStep(spins, s, 0, c)
    ensures StepOf(spins, s, 0, c).stopped
  {
    hide Picks, StepRunAll, StepUser, FastSeen, IdleSeen, SpinSeen;
  }

  /** Where a continuation gets: the scope has returned with everything done, or, in a pool that is being stopped,
      everybody has left. */
  ghost predicate WellEnded(s: State, s': State) {
    if |s.pcs| > 0 && Running(s) then
      |s'.pcs| > 0 && s'.pcs[0].Outside? && s'.stack == [] && s'.done == s.submitted
    else Finished(s')
  }

  lemma CanEnd(spins: bool, s: State)
    requires Fits(spins, s)
    ensures exists s' :: Leads(spins, s, s') && WellEnded(s, s')
  {
    ThreadAt(s, 0);
    hide Leads, Inv, Calm, RoleOk, ValueOk;
    var s': State;
    if Running(s) {
      s' := ComesBack(spins, s);
      AllReturned(s');
      LeadsSubmitsNothing(spins, s, s');
    } else if s.stopped {
      s' := LeavesAll(spins, s);
    } else {
      var c := Ending(s, 0);
      CanGoOn(spins, s, 0);
      StepFits(spins, s, 0, c);
      StopsNext(spins, s, c);
      s' := LeavesAll(spins, StepOf(spins, s, 0, c));
      LeadsAfter(spins, s, 0, c, s');
    }
    assert Leads(spins, s, s') && WellEnded(s, s');
  }

  /** From every reachable state of the futex version, if user code ends and nothing more is submitted, the threads have
      steps, without spurious wakes, to a state where the scope has returned and all that was submitted is done; or,
      once `stop` has begun, to one where everybody has left. */
  lemma CanAlwaysEnd(r: seq<State>, i: nat)
    requires IsRun(r) && i < |r|
    ensures exists s' :: Leads(false, r[i], s') && WellEnded(r[i], s')
  {
    RunKeeps(r, i);
    hide IsRun, Leads, WellEnded, Inv;
    CanEnd(false, r[i]);
  }

  /** The same for the spinning version. */
  lemma SpinCanAlwaysEnd(r: seq<State>, i: nat)
    requires IsSpinRun(r) && i < |r|
    ensures exists s' :: Leads(true, r[i], s') && WellEnded(r[i], s')
  {
    var f := SpinRefines(r, i);
    RunKeeps(f, |f| - 1);
    hide IsRun, IsSpinRun, Leads, WellEnded, Inv, Calm;
    CanEnd(true, r[i]);
  }
}
