/** What holds in every reachable state of the thread pool. */
module ThreadPoolRuns {
  import opened Wrappers
  import opened ThreadPool
  import opened ThreadPoolInvariant
  import opened ThreadPoolSteps
  import opened ThreadPoolChanges

  lemma InitCounts(s: State)
    requires Init(s)
    ensures Count(IsIdle, s.pcs) == |s.pcs| - 1 && Count(Holds, s.pcs) == 0
  {
    var idle := s.pcs[0 := IdleReload];
    CountBounds(IsIdle, idle);
    CountUpdate(IsIdle, idle, 0, Outside);
    assert idle[0 := Outside] == s.pcs;
    CountBounds(Holds, s.pcs);
  }

  lemma InitInv(s: State)
    requires Init(s)
    ensures Inv(s)
  {
    InitCounts(s);
    hide Count;
    forall t | 0 <= t < |s.pcs| ensures Owed(s.pcs[t], s.jobs[t]) == multiset{} {
      assert s.jobs[t] == None;
    }
    NothingOwed(s.pcs, s.jobs);
    hide AllOwed, Owed;
    InitThreads(s);
    hide ThreadOk;
  }

  lemma InitThreads(s: State)
    requires Init(s) && Count(IsIdle, s.pcs) == |s.pcs| - 1
    ensures AllOk(s)
  {
    forall t | 0 <= t < |s.pcs| ensures ThreadOk(s, t) {
      assert s.jobs[t] == None;
      assert s.pcs[t] == if t == 0 then Outside else IdleReload;
    }
  }

  lemma UserKeeps(s: State, t: nat, c: Choice)
    requires Inv(s) && Enabled(s, t, c) && (s.pcs[t].Closure? || s.pcs[t].User?)
    ensures Inv(Step(s, t, c))
  {
    ThreadAt(s, t);
    var a := if s.pcs[t].User? then ToUser else ToClosure;
    hide Inv;
    if c.act.Submit? {
      SubmitKeeps(s, t, c.act.task, a);
    } else if s.pcs[t].User? {
      FinishKeeps(s, t);
    } else {
      ClosureKeeps(s, t);
    }
  }

  lemma NotStopped(s: State, t: nat)
    requires Inv(s) && t < |s.pcs| && !IsIdle(s.pcs[t]) && !s.pcs[t].StopWake? && !s.pcs[t].Stopped?
    ensures !s.stopped
  {
    ThreadAt(s, t);
  }

  /** A successful exchange in the fast loop. */
  lemma FastKeeps(s: State, t: nat, c: Choice)
    requires Inv(s) && Enabled(s, t, c) && !OnlyMoves(s, t, c) && s.pcs[t].LockCas?
    ensures Inv(Step(s, t, c))
  {
    NotStopped(s, t);
    assert ThreadOk(s, t);
    var k, w := s.pcs[t].k, Base(s.word) + 1;
    FastStep(s, t, c, k, w);
    hide *;
    AcquireKeeps(s, t, k, w);
  }

  lemma FastStep(s: State, t: nat, c: Choice, k: Want, w: nat)
    requires Enabled(s, t, c) && !OnlyMoves(s, t, c) && s.pcs[t].LockCas? && ThreadOk(s, t)
    requires k == s.pcs[t].k && w == Base(s.word) + 1
    ensures TakesLock(s, t, k, w) && Step(s, t, c) == s.(word := w).At(t, Holding(k))
  {
  }

  /** A successful exchange in the slow loop: it takes a free lock, and marks a locked one contended. */
  lemma SlowKeeps(s: State, t: nat, c: Choice)
    requires Inv(s) && Enabled(s, t, c) && !OnlyMoves(s, t, c) && s.pcs[t].SlowTry?
    ensures Inv(Step(s, t, c))
  {
    NotStopped(s, t);
    var k, w := s.pcs[t].k, Base(s.word) + 3;
    if Locked(s.word) {
      ContendStep(s, t, c, k, w);
      hide *;
      ContendKeeps(s, t, k, w);
    } else {
      SlowTakeStep(s, t, c, k, w);
      hide *;
      AcquireKeeps(s, t, k, w);
    }
  }

  lemma ContendStep(s: State, t: nat, c: Choice, k: Want, w: nat)
    requires Enabled(s, t, c) && !OnlyMoves(s, t, c) && s.pcs[t].SlowTry? && Locked(s.word)
    requires k == s.pcs[t].k && w == Base(s.word) + 3
    ensures Step(s, t, c) == s.(word := w).At(t, SlowWait(k, w))
  {
  }

  lemma SlowTakeStep(s: State, t: nat, c: Choice, k: Want, w: nat)
    requires Enabled(s, t, c) && !OnlyMoves(s, t, c) && s.pcs[t].SlowTry? && !Locked(s.word)
    requires k == s.pcs[t].k && w == Base(s.word) + 3
    ensures TakesLock(s, t, k, w) && Step(s, t, c) == s.(word := w).At(t, Holding(k))
  {
  }

  lemma HolderStep(s: State, t: nat, c: Choice)
    requires Enabled(s, t, c) && (s.pcs[t].Holding? || s.pcs[t].UnlockSwap? || s.pcs[t].IdleSwap?)
    ensures Step(s, t, c) ==
      match s.pcs[t]
      case Holding(Push(w, a)) => s.(stack := s.stack + [w]).At(t, UnlockLoad(true, a))
      case Holding(RunAll) => StepRunAll(s, t)
      case UnlockSwap(v, _, _) => s.(word := v).At(t, Unlocked(s.pcs[t], s.word))
      case IdleSwap(v) => s.(word := v).At(t, if Contended(s.word) then IdleWakeLock(v) else IdleEntered(t, |s.pcs|, v))
      case _ => s
  {
    hide StepRunAll, IdleEntered;
  }

  lemma HolderKeeps(s: State, t: nat, c: Choice)
    requires Inv(s) && Enabled(s, t, c) && (s.pcs[t].Holding? || s.pcs[t].UnlockSwap? || s.pcs[t].IdleSwap?)
    ensures Inv(Step(s, t, c))
  {
    ThreadAt(s, t);
    HolderStep(s, t, c);
    hide Step, StepRunAll, IdleEntered, Inv;
    match s.pcs[t]
    case Holding(Push(w, a)) => PushKeeps(s, t, w, a);
    case Holding(RunAll) => RunAllKeeps(s, t);
    case UnlockSwap(v, wake, a) => UnlockKeeps(s, t);
    case IdleSwap(v) =>
      UnlockIdleKeeps(s, t, v, if Contended(s.word) then IdleWakeLock(v) else IdleEntered(t, |s.pcs|, v));
    case _ =>
  }

  lemma IdleCasTakes(s: State, t: nat, c: Choice)
    requires Inv(s) && Enabled(s, t, c) && !OnlyMoves(s, t, c) && s.pcs[t].IdleCas?
    ensures Inv(Step(s, t, c))
  {
    ThreadAt(s, t);
    assert s.word == s.pcs[t].v && !s.stopped;
    hide Inv;
    IdleCasKeeps(s, t);
    assert Step(s, t, c) == s.(word := s.word - 5).At(t, Holding(RunAll));
    hide *;
  }

  lemma MainKeeps(s: State, t: nat, c: Choice)
    requires Inv(s) && Enabled(s, t, c) && (s.pcs[t].MainStore? || s.pcs[t].StopStore?)
    ensures Inv(Step(s, t, c))
  {
    ThreadAt(s, t);
    assert !s.stopped && t == 0;
    hide Inv;
    if s.pcs[t].MainStore? {
      MainStoreKeeps(s, t, s.pcs[t].v);
    } else {
      StopStoreKeeps(s);
    }
    MainStep(s, c);
    hide *;
  }

  lemma MainStep(s: State, c: Choice)
    requires Enabled(s, 0, c)
    ensures s.pcs[0].MainStore? && s.pcs[0].v >= 4 ==> Step(s, 0, c) == s.(word := s.pcs[0].v - 4).At(0, Outside)
    ensures s.pcs[0].StopStore? ==> Step(s, 0, c) == s.(word := 0, stopped := true).At(0, StopWake)
  {
  }

  lemma StepKeeps(s: State, t: nat, c: Choice)
    requires Inv(s) && Enabled(s, t, c)
    ensures Inv(Step(s, t, c))
  {
    hide Inv, Step;
    if OnlyMoves(s, t, c) {
      OnlyMovesKeeps(s, t, c);
    } else if OnlyWakes(s.pcs[t]) {
      OnlyWakesKeeps(s, t, c);
    } else {
      match s.pcs[t]
      case Closure => UserKeeps(s, t, c);
      case User => UserKeeps(s, t, c);
      case LockCas(_, _) => FastKeeps(s, t, c);
      case SlowTry(_, _) => SlowKeeps(s, t, c);
      case Holding(_) => HolderKeeps(s, t, c);
      case UnlockSwap(_, _, _) => HolderKeeps(s, t, c);
      case IdleSwap(_) => HolderKeeps(s, t, c);
      case IdleCas(_) => IdleCasTakes(s, t, c);
      case MainStore(_) => MainKeeps(s, t, c);
      case StopStore => MainKeeps(s, t, c);
      case StopWake => StopWakeKeeps(s, t, c);
      case _ =>
    }
  }

  /** The invariant holds in every state of every run, for any number of threads and any tasks. */
  lemma {:induction false} RunKeeps(r: seq<State>, i: nat)
    requires IsRun(r) && i < |r|
    ensures Inv(r[i])
  {
    if i == 0 {
      InitInv(r[0]);
    } else {
      RunKeeps(r, i - 1);
      hide Inv, Step, Enabled;
      assert Next(r[i - 1], r[i - 1 + 1]);
      if Spurious(r[i - 1], r[i]) {
        SpuriousKeeps(r[i - 1], r[i]);
      } else {
        var t, c :| Enabled(r[i - 1], t, c) && r[i] == Step(r[i - 1], t, c);
        StepKeeps(r[i - 1], t, c);
      }
    }
  }

  /** Conservation, in every reachable state: a submitted unit is on the stack, or carried by exactly one
      thread, or done, as often as it was submitted. */
  lemma UnitsConserved(r: seq<State>, i: nat)
    requires IsRun(r) && i < |r|
    ensures |r[i].jobs| == |r[i].pcs|
    ensures r[i].submitted == StackUnits(r[i].stack) + AllOwed(r[i].pcs, r[i].jobs) + r[i].done
  {
    RunKeeps(r, i);
  }

  /** Sleepers are never forgotten: one on the lock has the contention flag set, a wake pending or a woken
      contender running; thread 0 sleeps on the all-idle word only with its wake pending. */
  lemma SleepersRemembered(r: seq<State>, i: nat, t: nat)
    requires IsRun(r) && i < |r| && t < |r[i].pcs|
    ensures r[i].pcs[t].SlowAsleep? ==>
      Tag(r[i].word) == 3 || exists u :: 0 <= u < |r[i].pcs| && LockAttended(r[i].pcs[u])
    ensures r[i].pcs[0].IdleAsleep? && r[i].word == 4 * |r[i].pcs| ==>
      exists u :: 1 <= u < |r[i].pcs| && WakesMain(r[i].pcs[u], |r[i].pcs|)
  {
    RunKeeps(r, i);
  }

  /** What the lock word means, in every reachable state before `stop` clears it: the idle field is
      the number of idle threads, the lock bit is set exactly while a thread holds the lock, at most
      one does, and an unlocked word shows work exactly if the stack is not empty. */
  lemma WordMeaning(r: seq<State>, i: nat)
    requires IsRun(r) && i < |r| && !r[i].stopped
    ensures Idle(r[i].word) == Count(IsIdle, r[i].pcs) <= |r[i].pcs|
    ensures Locked(r[i].word) <==> exists t :: 0 <= t < |r[i].pcs| && Holds(r[i].pcs[t])
    ensures forall t, u :: 0 <= t < u < |r[i].pcs| ==> !(Holds(r[i].pcs[t]) && Holds(r[i].pcs[u]))
    ensures !Locked(r[i].word) ==> (Contended(r[i].word) <==> r[i].stack != [])
  {
    var s := r[i];
    RunKeeps(r, i);
    CountBounds(IsIdle, s.pcs);
    CountBounds(Holds, s.pcs);
    forall t, u | 0 <= t < u < |s.pcs| && Holds(s.pcs[t]) && Holds(s.pcs[u]) ensures false {
      CountTwo(Holds, s.pcs, t, u);
    }
  }

  /** A waiting thread reads zero only after `stop`, although zero is also the word of a pool that
      has everyone busy and nothing queued. */
  lemma ZeroMeansStopped(r: seq<State>, i: nat, t: nat)
    requires IsRun(r) && i < |r| && t < |r[i].pcs| && IsIdle(r[i].pcs[t])
    ensures r[i].word == 0 <==> r[i].stopped
    ensures r[i].pcs[t].Exited? ==> r[i].stopped
  {
    RunKeeps(r, i);
    ThreadAt(r[i], t);
  }

  predicate MainAt(s: State, f: PC -> bool) {
    |s.pcs| > 0 && f(s.pcs[0])
  }

  /** When `scope` returns, and before it has taken itself off the idle count, the stack is empty,
      no thread runs or carries a task, and exactly the units submitted so far have been done, each
      as often as it was submitted. */
  lemma ScopeReturns(r: seq<State>, i: nat)
    requires IsRun(r) && i < |r| && MainAt(r[i], (p: PC) => p.Outside? || p.MainStore? || p.StopStore?)
    ensures r[i].stack == [] && r[i].done == r[i].submitted
    ensures |r[i].jobs| == |r[i].pcs|
    ensures forall t :: 0 <= t < |r[i].pcs| ==> r[i].jobs[t] == None && (t != 0 ==> IsIdle(r[i].pcs[t]))
  {
    RunKeeps(r, i);
    AllReturned(r[i]);
  }

  lemma AllReturned(s: State)
    requires Inv(s) && (s.pcs[0].Outside? || s.pcs[0].MainStore? || s.pcs[0].StopStore?)
    ensures s.stack == [] && s.done == s.submitted
    ensures forall t :: 0 <= t < |s.pcs| ==> s.jobs[t] == None && (t != 0 ==> IsIdle(s.pcs[t]))
  {
    ThreadAt(s, 0);
    if s.pcs[0].MainStore? {
      CountBounds(IsIdle, s.pcs);
    } else {
      Resting(s);
    }
    NoJobs(s);
    NothingOwed(s.pcs, s.jobs);
  }

  lemma NoJobs(s: State)
    requires Shape(s) && AllOk(s) && !Pushing(s.pcs[0]) && s.jobs[0] == None
    requires forall t :: 1 <= t < |s.pcs| ==> IsIdle(s.pcs[t])
    ensures forall t :: 0 <= t < |s.pcs| ==> s.jobs[t] == None && Owed(s.pcs[t], s.jobs[t]) == multiset{}
  {
    forall t | 0 <= t < |s.pcs| ensures s.jobs[t] == None && Owed(s.pcs[t], s.jobs[t]) == multiset{} {
      assert ThreadOk(s, t);
      hide ValueOk;
    }
  }

  /** The assertions in `stop`: no state bits are set and everybody else is idle. */
  lemma StopAsserts(r: seq<State>, i: nat)
    requires IsRun(r) && i < |r| && MainAt(r[i], (p: PC) => p.StopStore?)
    ensures Tag(r[i].word) == 0 && Idle(r[i].word) == |r[i].pcs| - 1 && r[i].stack == []
  {
    RunKeeps(r, i);
    ThreadAt(r[i], 0);
    Resting(r[i]);
  }

  /** Everybody has left. */
  predicate Finished(s: State) {
    |s.pcs| > 0 && s.pcs[0].Stopped? && forall t :: 1 <= t < |s.pcs| ==> s.pcs[t].Exited?
  }

  predicate Asleep(p: PC) {
    p.SlowAsleep? || p.IdleAsleep?
  }

  /** Only a sleeper or a thread that has left cannot step. */
  lemma AwakeSteps(s: State, t: nat)
    requires Inv(s) && t < |s.pcs| && !Asleep(s.pcs[t]) && !s.pcs[t].Exited? && !s.pcs[t].Stopped?
    ensures exists c :: Enabled(s, t, c)
  {
    ThreadAt(s, t);
    var p := s.pcs[t];
    var act := if p.Outside? then EnterScope else Finish;
    var who :=
      if p.UnlockWakeWork? then Chosen(s, IdleSleeper) else Chosen(s, LockSleeper);
    assert Enabled(s, t, Choice(act, false, false, who));
  }

  /** A wake finds a sleeper to pick, or there is none. */
  ghost function Chosen(s: State, asleep: PC -> bool): (u: nat)
    requires |s.pcs| > 0
    ensures Picks(s, u, asleep)
  {
    if u :| 0 <= u < |s.pcs| && asleep(s.pcs[u]) then u else 0
  }

  /** If everybody sleeps, then everybody sleeps on the idle word, and nobody is about to wake thread 0. */
  lemma AllAsleep(s: State)
    requires Shape(s) && WordOk(s) && LockSleepersOk(s) && forall t :: 0 <= t < |s.pcs| ==> Asleep(s.pcs[t])
    ensures s.pcs[0].IdleAsleep? && s.word == 4 * |s.pcs| && forall t :: 0 <= t < |s.pcs| ==> !WakesMain(s.pcs[t], |s.pcs|)
  {
    CountBounds(Holds, s.pcs);
    CountBounds(IsIdle, s.pcs);
    assert !Locked(s.word);
    assert forall t :: 0 <= t < |s.pcs| ==> !LockAttended(s.pcs[t]);
    assert forall t :: 0 <= t < |s.pcs| ==> IsIdle(s.pcs[t]);
  }

  lemma Awake(s: State)
    requires Inv(s) && !s.stopped
    ensures exists t :: 0 <= t < |s.pcs| && !Asleep(s.pcs[t])
  {
    if forall t :: 0 <= t < |s.pcs| ==> Asleep(s.pcs[t]) {
      AllAsleep(s);
      assert false;
    }
  }

  /** No deadlock and no lost wake-up: until everybody has left, some thread can take a step that is
      not a spurious wake. */
  lemma NoDeadlock(r: seq<State>, i: nat)
    requires IsRun(r) && i < |r|
    ensures Finished(r[i]) || exists t, c :: Enabled(r[i], t, c)
  {
    var s := r[i];
    RunKeeps(r, i);
    if !s.stopped {
      Awake(s);
      var t :| 0 <= t < |s.pcs| && !Asleep(s.pcs[t]);
      assert WordOk(s);
      AwakeSteps(s, t);
    } else if s.pcs[0].StopWake? {
      AwakeSteps(s, 0);
    } else if !Finished(s) {
      var t :| 1 <= t < |s.pcs| && !s.pcs[t].Exited?;
      AwakeSteps(s, t);
    }
  }
}
