/**
 The spinning version of the thread pool's lock (`src/threading/sync_impl.spin.rs`): nobody sleeps, so nobody is woken
 and the word needs no contention flag. Every state it reaches is one that the futex version reaches too.
 */
module ThreadPoolSpin {
  import opened Wrappers
  import opened ThreadPool
  import opened ThreadPoolInvariant
  import opened ThreadPoolSteps
  import opened ThreadPoolRuns

  /** The program points that only the futex version has. */
  predicate Sleeps(p: PC) {
    p.SlowTry? || p.SlowWait? || p.SlowAsleep? || p.SlowLoad? || p.UnlockWakeLock? || p.UnlockWakeWork?
    || p.IdleWakeLock? || p.IdleWakeMain? || p.IdleWait? || p.IdleAsleep? || p.StopWake?
  }

  predicate SpinEnabled(s: State, t: nat, c: Choice) {
    Enabled(s, t, c) && !Sleeps(s.pcs[t])
  }

  /** The word with the lock bit cleared. */
  function Unlocked(v: nat): nat {
    if v == 0 then 0 else v - 1
  }

  /** One atomic step; user code and the run loop are those of the other version. What `unlock` would wake is
      remembered but not used. */
  function SpinStep(s: State, t: nat, c: Choice): State
    requires SpinEnabled(s, t, c)
  {
    match s.pcs[t]
    case LockLoad(k) => s.At(t, if Locked(s.word) then LockLoad(k) else LockCas(k, s.word))
    case LockCas(k, v) =>
      if s.word == v && !c.casFails then s.(word := Base(v) + 1).At(t, Holding(k))
      else s.At(t, if Locked(s.word) then LockLoad(k) else LockCas(k, s.word))
    case UnlockLoad(nonempty, a) =>
      var v := Unlocked(s.word) + if nonempty then 2 else 0;
      s.At(t, UnlockSwap(v, nonempty && v >= 4, a))
    case UnlockSwap(v, _, a) => s.(word := v).At(t, Return(a))
    case IdleLoad => s.At(t, IdleSwap(Unlocked(s.word) + 4))
    case IdleSwap(v) => s.(word := v).At(t, IdleSpin(v))
    case IdleSpin(v) => s.At(t, if t == 0 && v == 4 * |s.pcs| then MainStore(v) else IdleReload)
    case IdleReload => s.At(t, SpinSeen(t, s.word))
    case IdleCas(v) =>
      if s.word == v && !c.casFails && v >= 5 then s.(word := v - 4 - 2 + 1).At(t, Holding(RunAll))
      else s.At(t, SpinSeen(t, s.word))
    case StopStore => s.(word := 0, stopped := true).At(t, Stopped)
    case _ => Step(s, t, c)
  }

  /** The waiting loops after reading `v`: the work bit is tested, not the whole tag. */
  function SpinSeen(t: nat, v: nat): PC {
    if Contended(v) then IdleCas(v) else if t != 0 && v == 0 then Exited else IdleSpin(v)
  }

  ghost predicate SpinNext(s: State, s': State) {
    exists t, c :: SpinEnabled(s, t, c) && s' == SpinStep(s, t, c)
  }

  ghost predicate IsSpinRun(r: seq<State>) {
    r != [] && Init(r[0]) && forall i :: 0 <= i < |r| - 1 ==> SpinNext(r[i], r[i + 1])
  }

  /** Nobody sleeps or wakes, and the word is not contended. */
  predicate Calm(s: State) {
    Tag(s.word) != 3 && forall t :: 0 <= t < |s.pcs| ==> !Sleeps(s.pcs[t])
  }

  /** The step of the other version that is taken first. */
  function First(t: nat, c: Choice): Choice {
    Choice(c.act, true, c.casFails, t)
  }

  /** One step here is one step there, or two where the other version would also wake a sleeper. */
  ghost predicate IsStep(s: State, s': State, t: nat, c: Choice) {
    Enabled(s, t, c) && (s' == Step(s, t, c) || (Enabled(Step(s, t, c), t, c) && s' == Step(Step(s, t, c), t, c)))
  }

  lemma SpinIsStep(s: State, t: nat, c: Choice)
    requires Inv(s) && Calm(s) && SpinEnabled(s, t, c)
    ensures IsStep(s, SpinStep(s, t, c), t, First(t, c))
  {
    ThreadAt(s, t);
    hide Inv;
    var p := s.pcs[t];
    if p.UnlockLoad? || p.UnlockSwap? || p.IdleLoad? || p.IdleSwap? {
      HolderSteps(s, t, c);
    } else if p.StopStore? {
      StopSteps(s, t, c);
    } else if p.LockLoad? || p.LockCas? || p.IdleSpin? || p.IdleReload? || p.IdleCas? {
      OtherSteps(s, t, c);
    }
  }

  /** The holder of an uncontended lock. */
  lemma HolderSteps(s: State, t: nat, c: Choice)
    requires Inv(s) && Calm(s) && SpinEnabled(s, t, c)
    requires s.pcs[t].UnlockLoad? || s.pcs[t].UnlockSwap? || s.pcs[t].IdleLoad? || s.pcs[t].IdleSwap?
    ensures IsStep(s, SpinStep(s, t, c), t, First(t, c))
  {
    HolderTag(s, t);
    hide Inv, IsStep, SpinStep;
    if s.pcs[t].UnlockSwap? {
      UnlockSteps(s, t, c);
    } else if s.pcs[t].IdleSwap? {
      IdleSteps(s, t, c);
    } else {
      LoadSteps(s, t, c);
    }
  }

  lemma LoadSteps(s: State, t: nat, c: Choice)
    requires SpinEnabled(s, t, c) && (s.pcs[t].UnlockLoad? || s.pcs[t].IdleLoad?) && Unlocked(s.word) == Base(s.word)
    ensures IsStep(s, SpinStep(s, t, c), t, First(t, c))
  {
  }

  lemma UnlockSteps(s: State, t: nat, c: Choice)
    requires Calm(s) && SpinEnabled(s, t, c) && s.pcs[t].UnlockSwap? && Tag(s.word) == 1
    ensures IsStep(s, SpinStep(s, t, c), t, First(t, c))
  {
    var c', p := First(t, c), s.pcs[t];
    var s1 := Step(s, t, c');
    if p.wake {
      assert s1 == s.(word := p.v).At(t, UnlockWakeWork(p.after));
      NobodySleeps(s, s1, t);
      assert Woken(s1, t, IdleSleeper) == s1;
      assert s1.pcs[t := Return(p.after)] == s.pcs[t := Return(p.after)];
    }
  }

  lemma IdleSteps(s: State, t: nat, c: Choice)
    requires Calm(s) && SpinEnabled(s, t, c) && s.pcs[t].IdleSwap? && Tag(s.word) == 1
    ensures IsStep(s, SpinStep(s, t, c), t, First(t, c))
  {
    var c', p := First(t, c), s.pcs[t];
    var s1 := Step(s, t, c');
    if t != 0 && Idle(p.v) == |s.pcs| {
      assert s1 == s.(word := p.v).At(t, IdleWakeMain(p.v));
      assert s1.pcs[0] == s.pcs[0];
      assert Woken(s1, 0, IdleSleeper) == s1;
      assert s1.pcs[t := IdleSpin(p.v)] == s.pcs[t := IdleSpin(p.v)];
    }
  }

  lemma NobodySleeps(s: State, s1: State, t: nat)
    requires Calm(s) && t < |s.pcs| == |s1.pcs| && !IdleSleeper(s1.pcs[t]) && s1.pcs == s.pcs[t := s1.pcs[t]]
    ensures Picks(s1, t, IdleSleeper)
  {
    forall u | 0 <= u < |s1.pcs| ensures !IdleSleeper(s1.pcs[u]) {
      assert u != t ==> s1.pcs[u] == s.pcs[u];
    }
  }

  lemma HolderTag(s: State, t: nat)
    requires Inv(s) && Calm(s) && t < |s.pcs| && Holds(s.pcs[t])
    ensures Tag(s.word) == 1 && s.word > 0 && Unlocked(s.word) == Base(s.word)
  {
    CountBounds(Holds, s.pcs);
    ThreadAt(s, 0);
  }

  lemma StopSteps(s: State, t: nat, c: Choice)
    requires Calm(s) && SpinEnabled(s, t, c) && s.pcs[t].StopStore?
    ensures IsStep(s, SpinStep(s, t, c), t, First(t, c))
  {
    var c' := First(t, c);
    var s1 := Step(s, t, c');
    assert WakeAll(s1.pcs)[t := Stopped] == SpinStep(s, t, c).pcs;
  }

  lemma OtherSteps(s: State, t: nat, c: Choice)
    requires Calm(s) && SpinEnabled(s, t, c)
    requires s.pcs[t].LockLoad? || s.pcs[t].LockCas? || s.pcs[t].IdleSpin? || s.pcs[t].IdleReload? || s.pcs[t].IdleCas?
    ensures IsStep(s, SpinStep(s, t, c), t, First(t, c))
  {
    assert Contended(s.word) <==> Tag(s.word) == 2;
  }

  lemma SpinStaysCalm(s: State, t: nat, c: Choice)
    requires Inv(s) && Calm(s) && SpinEnabled(s, t, c)
    ensures Calm(SpinStep(s, t, c))
  {
    SpinMoves(s, t, c);
    var s' := SpinStep(s, t, c);
    hide Inv, SpinStep;
    forall u | 0 <= u < |s'.pcs| ensures !Sleeps(s'.pcs[u]) {
      assert u != t ==> s'.pcs[u] == s.pcs[u];
    }
  }

  lemma SpinMoves(s: State, t: nat, c: Choice)
    requires Inv(s) && Calm(s) && SpinEnabled(s, t, c)
    ensures var s' := SpinStep(s, t, c);
      t < |s'.pcs| && s'.pcs == s.pcs[t := s'.pcs[t]] && !Sleeps(s'.pcs[t]) && Tag(s'.word) != 3
  {
    ThreadAt(s, t);
    var p := s.pcs[t];
    assert p.UnlockSwap? ==> Tag(p.v) != 3;
    assert p.IdleSwap? || p.MainStore? ==> Tag(p.v) == 0;
    assert p.IdleCas? ==> Tag(p.v) == 2;
    hide Inv, ThreadOk, WordOk, StoppedOk;
    if p.Closure? || p.User? || p.Holding? || p.Outside? {
      CommonMoves(s, t, c);
    } else {
      OtherMoves(s, t, c);
    }
  }

  lemma OtherMoves(s: State, t: nat, c: Choice)
    requires SpinEnabled(s, t, c) && Tag(s.word) != 3
    requires var p := s.pcs[t];
      && !p.Closure? && !p.User? && !p.Holding? && !p.Outside?
      && (p.UnlockSwap? ==> Tag(p.v) != 3) && (p.IdleSwap? || p.MainStore? ==> Tag(p.v) == 0)
      && (p.IdleCas? ==> Tag(p.v) == 2)
    ensures var s' := SpinStep(s, t, c);
      t < |s'.pcs| && s'.pcs == s.pcs[t := s'.pcs[t]] && !Sleeps(s'.pcs[t]) && Tag(s'.word) != 3
  {
    var p := s.pcs[t];
    NewTags(if p.LockCas? || p.IdleCas? || p.MainStore? then p.v else 0);
    hide Tag, Base, SpinStep;
    if p.LockLoad? || p.LockCas? || p.UnlockLoad? || p.UnlockSwap? {
      LockMoves(s, t, c);
    } else {
      IdleMoves(s, t, c);
    }
  }

  lemma LockMoves(s: State, t: nat, c: Choice)
    requires SpinEnabled(s, t, c) && Tag(s.word) != 3
    requires var p := s.pcs[t];
      && (p.LockLoad? || p.LockCas? || p.UnlockLoad? || p.UnlockSwap?)
      && (p.UnlockSwap? ==> Tag(p.v) != 3) && (p.LockCas? ==> Tag(Base(p.v) + 1) == 1)
    ensures var s' := SpinStep(s, t, c);
      t < |s'.pcs| && s'.pcs == s.pcs[t := s'.pcs[t]] && !Sleeps(s'.pcs[t]) && Tag(s'.word) != 3
  {
    hide Tag, Base, Locked, Contended, StepUser, StepRunAll, Picks, Woken;
  }

  lemma IdleMoves(s: State, t: nat, c: Choice)
    requires SpinEnabled(s, t, c) && Tag(s.word) != 3 && Tag(0) == 0
    requires var p := s.pcs[t];
      && (p.IdleLoad? || p.IdleSwap? || p.IdleSpin? || p.IdleReload? || p.IdleCas? || p.MainStore? || p.StopStore?)
      && (p.IdleSwap? ==> Tag(p.v) == 0) && (p.MainStore? && p.v >= 4 ==> Tag(p.v - 4) == 0)
      && (p.IdleCas? && p.v >= 5 ==> Tag(p.v - 4 - 2 + 1) == 1)
    ensures var s' := SpinStep(s, t, c);
      t < |s'.pcs| && s'.pcs == s.pcs[t := s'.pcs[t]] && !Sleeps(s'.pcs[t]) && Tag(s'.word) != 3
  {
    hide Tag, Base, Locked, Contended, StepUser, StepRunAll, Picks, Woken;
  }

  lemma NewTags(v: nat)
    ensures Tag(Base(v) + 1) == 1 && (v >= 5 && Tag(v) == 2 ==> Tag(v - 4 - 2 + 1) == 1)
    ensures Tag(0) == 0 && (v >= 4 && Tag(v) == 0 ==> Tag(v - 4) == 0)
  {
  }

  /** User code and the run loop do not touch the word. */
  lemma CommonMoves(s: State, t: nat, c: Choice)
    requires SpinEnabled(s, t, c) && (s.pcs[t].Closure? || s.pcs[t].User? || s.pcs[t].Holding? || s.pcs[t].Outside?)
    ensures var s' := Step(s, t, c); t < |s'.pcs| && s'.pcs == s.pcs[t := s'.pcs[t]] && !Sleeps(s'.pcs[t]) && s'.word == s.word
  {
  }

  lemma SpinStart(r: seq<State>)
    requires IsSpinRun(r)
    ensures IsRun([r[0]]) && Calm(r[0])
  {
    hide SpinNext;
  }

  lemma SpinAt(r: seq<State>, i: nat) returns (t: nat, c: Choice)
    requires IsSpinRun(r) && 0 < i < |r|
    ensures SpinEnabled(r[i - 1], t, c) && r[i] == SpinStep(r[i - 1], t, c)
  {
    hide SpinEnabled, SpinStep, Init;
    assert SpinNext(r[i - 1], r[i - 1 + 1]);
    t, c :| SpinEnabled(r[i - 1], t, c) && r[i] == SpinStep(r[i - 1], t, c);
  }

  /** Every state of a run is the last one of some run of the futex version, in which nobody sleeps. */
  lemma {:induction false} SpinRefines(r: seq<State>, i: nat) returns (f: seq<State>)
    requires IsSpinRun(r) && i < |r|
    ensures IsRun(f) && f != [] && f[|f| - 1] == r[i] && Calm(r[i])
  {
    hide *;
    if i == 0 {
      SpinStart(r);
      f := [r[0]];
    } else {
      f := SpinRefines(r, i - 1);
      var t, c := SpinAt(r, i);
      RunKeeps(f, |f| - 1);
      SpinIsStep(r[i - 1], t, c);
      SpinStaysCalm(r[i - 1], t, c);
      f := Followed(f, r[i], t, First(t, c));
    }
  }

  lemma Followed(f: seq<State>, s: State, t: nat, c: Choice) returns (g: seq<State>)
    requires IsRun(f) && IsStep(f[|f| - 1], s, t, c)
    ensures IsRun(g) && g != [] && g[|g| - 1] == s
  {
    hide IsRun, Step, Enabled;
    NotEmpty(f);
    g := Extended(f, t, c);
    if s != g[|g| - 1] {
      g := Extended(g, t, c);
    }
  }

  lemma NotEmpty(f: seq<State>)
    requires IsRun(f)
    ensures f != []
  {
    hide Next, Init;
  }

  lemma Extended(f: seq<State>, t: nat, c: Choice) returns (g: seq<State>)
    requires IsRun(f) && Enabled(f[|f| - 1], t, c)
    ensures IsRun(g) && g != [] && g[|g| - 1] == Step(f[|f| - 1], t, c)
  {
    hide Step, Enabled, Init, Spurious;
    var n := |f| - 1;
    g := f + [Step(f[n], t, c)];
    forall i | 0 <= i < |g| - 1 ensures Next(g[i], g[i + 1]) {
      if i < n {
        assert Next(f[i], f[i + 1]);
      }
    }
  }

  /** The lock word means the same as in the futex version, and never shows contention. */
  lemma SpinWordMeaning(r: seq<State>, i: nat)
    requires IsSpinRun(r) && i < |r| && !r[i].stopped
    ensures Idle(r[i].word) == Count(IsIdle, r[i].pcs) <= |r[i].pcs| && Tag(r[i].word) != 3
    ensures Tag(r[i].word) == 1 <==> exists t :: 0 <= t < |r[i].pcs| && Holds(r[i].pcs[t])
    ensures forall t, u :: 0 <= t < u < |r[i].pcs| ==> !(Holds(r[i].pcs[t]) && Holds(r[i].pcs[u]))
    ensures Tag(r[i].word) != 1 ==> (Tag(r[i].word) == 2 <==> r[i].stack != [])
  {
    var f := SpinRefines(r, i);
    WordMeaning(f, |f| - 1);
  }

  /** A waiting thread reads zero only after `stop`, and leaves only then. */
  lemma SpinZeroMeansStopped(r: seq<State>, i: nat, t: nat)
    requires IsSpinRun(r) && i < |r| && t < |r[i].pcs| && IsIdle(r[i].pcs[t])
    ensures r[i].word == 0 <==> r[i].stopped
    ensures r[i].pcs[t].Exited? ==> r[i].stopped
  {
    var f := SpinRefines(r, i);
    ZeroMeansStopped(f, |f| - 1, t);
  }

  /** `scope` returns only when all submitted work is done. */
  lemma SpinScopeReturns(r: seq<State>, i: nat)
    requires IsSpinRun(r) && i < |r| && MainAt(r[i], (p: PC) => p.Outside? || p.MainStore? || p.StopStore?)
    ensures r[i].stack == [] && r[i].done == r[i].submitted
    ensures |r[i].jobs| == |r[i].pcs|
    ensures forall t :: 0 <= t < |r[i].pcs| ==> r[i].jobs[t] == None && (t != 0 ==> IsIdle(r[i].pcs[t]))
  {
    var f := SpinRefines(r, i);
    ScopeReturns(f, |f| - 1);
  }

  /** Every thread that has not left can always take a step. */
  lemma SpinNeverBlocks(r: seq<State>, i: nat, t: nat)
    requires IsSpinRun(r) && i < |r| && t < |r[i].pcs| && !r[i].pcs[t].Exited? && !r[i].pcs[t].Stopped?
    ensures exists c :: SpinEnabled(r[i], t, c)
  {
    var f := SpinRefines(r, i);
    RunKeeps(f, |f| - 1);
    AwakeSteps(r[i], t);
    var c :| Enabled(r[i], t, c);
    assert SpinEnabled(r[i], t, c);
  }
}
