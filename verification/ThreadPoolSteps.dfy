/** Every step of the thread pool keeps the invariant. */
module ThreadPoolSteps {
  import opened Wrappers
  import opened ThreadPool
  import opened ThreadPoolInvariant

  // Steps that only move program counters

  /** The states differ in program counters only. */
  predicate SameGlobals(s: State, s': State) {
    && s'.word == s.word && s'.stack == s.stack && s'.stopped == s.stopped && s'.jobs == s.jobs
    && s'.submitted == s.submitted && s'.done == s.done && |s'.pcs| == |s.pcs|
  }

  /** Threads other than `t` stay where they are or are roused from sleep. */
  predicate OthersRoused(s: State, s': State, t: nat)
    requires |s'.pcs| == |s.pcs|
  {
    forall u :: 0 <= u < |s.pcs| && u != t ==> s'.pcs[u] == s.pcs[u] || s'.pcs[u] == Roused(s.pcs[u])
  }

  /** The new program point counts the same as the old one. */
  predicate SameClass(p: PC, q: PC) {
    IsIdle(p) == IsIdle(q) && Holds(p) == Holds(q) && Pushing(p) == Pushing(q) && (Pushing(p) ==> p.k.task == q.k.task)
  }

  predicate AllOk(s: State)
    requires Shape(s)
  {
    forall t :: 0 <= t < |s.pcs| ==> ThreadOk(s, t)
  }

  lemma MovesCounts(s: State, s': State, t: nat)
    requires Shape(s) && t < |s.pcs| && SameGlobals(s, s') && OthersRoused(s, s', t)
    requires SameClass(s.pcs[t], s'.pcs[t])
    ensures Count(IsIdle, s'.pcs) == Count(IsIdle, s.pcs) && Count(Holds, s'.pcs) == Count(Holds, s.pcs)
    ensures AllOwed(s'.pcs, s.jobs) == AllOwed(s.pcs, s.jobs)
  {
    forall u | 0 <= u < |s.pcs| ensures SameClass(s.pcs[u], s'.pcs[u]) {
      RousedIsFine(s', |s.pcs|, u, s.pcs[u], s.jobs[u]);
    }
    CountSame(IsIdle, s.pcs, s'.pcs);
    CountSame(Holds, s.pcs, s'.pcs);
    OwedSame(s.pcs, s'.pcs, s.jobs);
  }

  lemma MovesThreads(s: State, s': State, t: nat)
    requires Shape(s) && AllOk(s) && t < |s.pcs| && SameGlobals(s, s') && OthersRoused(s, s', t)
    requires Count(IsIdle, s'.pcs) == Count(IsIdle, s.pcs)
    requires RoleOk(|s.pcs|, t, s'.pcs[t], s.jobs[t]) && ValueOk(s, t, s'.pcs[t])
    ensures AllOk(s')
  {
    hide ValueOk, RoleOk, Count, Roused;
    forall u | 0 <= u < |s.pcs| ensures ThreadOk(s', u) {
      assert ThreadOk(s, u);
      RousedIsFine(s', |s.pcs|, u, s.pcs[u], s.jobs[u]);
      ValueSame(s, s', u, s'.pcs[u]);
    }
  }

  lemma Moves(s: State, s': State, t: nat)
    requires Inv(s) && t < |s.pcs| && SameGlobals(s, s') && OthersRoused(s, s', t)
    requires SameClass(s.pcs[t], s'.pcs[t])
    requires RoleOk(|s.pcs|, t, s'.pcs[t], s.jobs[t]) && ValueOk(s, t, s'.pcs[t])
    requires if s.stopped then StoppedOk(s')
             else !s'.pcs[t].Exited? && !s'.pcs[t].StopWake? && !s'.pcs[t].Stopped?
    requires LockSleepersOk(s') && MainSleepOk(s')
    ensures Inv(s')
  {
    hide ValueOk, RoleOk, Count, AllOwed, ThreadOk;
    MovesCounts(s, s', t);
    MovesThreads(s, s', t);
  }

  lemma RousedIsFine(s: State, n: nat, u: nat, p: PC, job: Option<Unit>)
    ensures SameClass(p, Roused(p))
    ensures RoleOk(n, u, p, job) ==> RoleOk(n, u, Roused(p), job)
    ensures Roused(p) != p ==> ValueOk(s, u, Roused(p))
  {
  }

  lemma ValueSame(s: State, s': State, u: nat, p: PC)
    requires s'.word == s.word && s'.stack == s.stack && |s'.pcs| == |s.pcs|
    requires Count(IsIdle, s'.pcs) == Count(IsIdle, s.pcs)
    ensures ValueOk(s', u, p) == ValueOk(s, u, p)
  {
  }

  /** Moving one program counter to `p` is harmless: neither kind of sleeper is affected. */
  predicate MayMove(s: State, t: nat, p: PC)
    requires Shape(s) && t < |s.pcs|
  {
    var q := s.pcs[t];
    && SameClass(q, p)
    && RoleOk(|s.pcs|, t, p, s.jobs[t]) && ValueOk(s, t, p)
    && !p.StopWake? && !p.Stopped? && !q.StopWake? && !q.Stopped? && (p.Exited? ==> s.stopped)
    && (p.SlowAsleep? ==> Tag(s.word) == 3)
    && (LockAttended(q) ==> LockAttended(p) || Tag(s.word) == 3)
    && (p.IdleAsleep? && t == 0 ==> s.word != 4 * |s.pcs|)
    && (p.IdleAsleep? ==> !s.stopped)
    && (WakesMain(q, |s.pcs|) ==> WakesMain(p, |s.pcs|))
  }

  lemma MovesAlone(s: State, t: nat, p: PC)
    requires Inv(s) && t < |s.pcs| && MayMove(s, t, p)
    ensures Inv(s.At(t, p))
  {
    var s' := s.At(t, p);
    assert LockSleepersOk(s') by {
      forall v | 0 <= v < |s.pcs| && s'.pcs[v].SlowAsleep?
        ensures Tag(s.word) == 3 || exists u :: 0 <= u < |s.pcs| && LockAttended(s'.pcs[u]) {
        if Tag(s.word) != 3 {
          assert s.pcs[v].SlowAsleep?;
          var u :| 0 <= u < |s.pcs| && LockAttended(s.pcs[u]);
          assert LockAttended(s'.pcs[u]);
        }
      }
    }
    assert MainSleepOk(s') by {
      if s'.pcs[0].IdleAsleep? && s.word == 4 * |s.pcs| {
        assert s.pcs[0].IdleAsleep?;
        var u :| 1 <= u < |s.pcs| && WakesMain(s.pcs[u], |s.pcs|);
        assert WakesMain(s'.pcs[u], |s.pcs|);
      }
    }
    Moves(s, s', t);
  }

  /** While a thread is idle and the pool is not stopped, the word is not zero. */
  lemma IdleSeesWord(s: State, t: nat)
    requires Inv(s) && !s.stopped && t < |s.pcs| && IsIdle(s.pcs[t])
    ensures s.word >= 4
  {
    CountBounds(IsIdle, s.pcs);
  }

  lemma ThreadAt(s: State, t: nat)
    requires Inv(s) && t < |s.pcs|
    ensures Shape(s) && ThreadOk(s, t)
    ensures s.stopped ==> s.word == 0 && (if t == 0 then s.pcs[t].StopWake? || s.pcs[t].Stopped? else IsIdle(s.pcs[t]))
    ensures !s.stopped && IsIdle(s.pcs[t]) ==> s.word >= 4
    ensures !s.stopped && s.word == 4 * |s.pcs| ==> Quiet(s)
  {
    if !s.stopped && IsIdle(s.pcs[t]) {
      IdleSeesWord(s, t);
    }
  }

  /** The steps that only move one program counter: reading, failing to exchange, going to sleep. */
  predicate OnlyMoves(s: State, t: nat, c: Choice)
    requires t < |s.pcs|
  {
    match s.pcs[t]
    case Outside => true
    case LockLoad(_) => true
    case LockCas(_, v) => s.word != v || c.casFails
    case SlowTry(_, v) => Tag(v) == 3 || s.word != v || c.casFails
    case SlowWait(_, _) => true
    case SlowLoad(_) => true
    case UnlockLoad(_, _) => true
    case IdleLoad => true
    case IdleSpin(_) => true
    case IdleWait(_) => true
    case IdleReload => true
    case IdleCas(v) => s.word != v || c.casFails
    case _ => false
  }

  /** What `ThreadAt` tells the moving thread about the rest. */
  predicate Around(s: State, t: nat) {
    && Shape(s) && t < |s.pcs| && ThreadOk(s, t)
    && (s.stopped ==> s.word == 0 && (if t == 0 then s.pcs[t].StopWake? || s.pcs[t].Stopped? else IsIdle(s.pcs[t])))
    && (!s.stopped && IsIdle(s.pcs[t]) ==> s.word >= 4)
    && (!s.stopped && s.word == 4 * |s.pcs| ==> Quiet(s))
  }

  /** Where the waiting loops go. */
  function IdleTo(s: State, t: nat, c: Choice): PC
    requires t < |s.pcs|
  {
    match s.pcs[t]
    case IdleSpin(v) =>
      if t == 0 && v == 4 * |s.pcs| then MainStore(v) else if c.spin then IdleReload else IdleWait(v)
    case IdleWait(v) => if s.word == v then IdleAsleep else IdleReload
    case _ => IdleSeen(t, s.word)
  }

  lemma IdleStep(s: State, t: nat, c: Choice)
    requires Enabled(s, t, c) && OnlyMoves(s, t, c) && IsIdle(s.pcs[t])
    ensures Step(s, t, c) == s.At(t, IdleTo(s, t, c))
  {
  }

  lemma IdleMayMove(s: State, t: nat, c: Choice)
    requires Around(s, t) && OnlyMoves(s, t, c) && IsIdle(s.pcs[t])
    ensures MayMove(s, t, IdleTo(s, t, c))
  {
    hide Quiet;
  }

  /** Where the second loop of `lock` goes without an exchange. */
  function SlowTo(s: State, p: PC): PC {
    match p
    case SlowTry(k, v) => if Tag(v) == 3 then SlowWait(k, v) else SlowTry(k, s.word)
    case SlowWait(k, v) => if s.word == v then SlowAsleep(k) else SlowLoad(k)
    case SlowLoad(k) => SlowTry(k, s.word)
    case _ => p
  }

  lemma SlowStep(s: State, t: nat, c: Choice)
    requires Enabled(s, t, c) && OnlyMoves(s, t, c) && (s.pcs[t].SlowTry? || s.pcs[t].SlowWait? || s.pcs[t].SlowLoad?)
    ensures Step(s, t, c) == s.At(t, SlowTo(s, s.pcs[t]))
  {
  }

  lemma SlowMayMove(s: State, t: nat, c: Choice)
    requires Around(s, t) && OnlyMoves(s, t, c) && (s.pcs[t].SlowTry? || s.pcs[t].SlowWait? || s.pcs[t].SlowLoad?)
    ensures MayMove(s, t, SlowTo(s, s.pcs[t]))
  {
    hide Quiet;
  }

  /** Where the other threads go: entering a scope or `stop`, trying the lock, reading before an unlock. */
  function OtherTo(s: State, p: PC, c: Choice): PC {
    match p
    case Outside => if c.act == Stop then StopStore else Closure
    case LockLoad(k) => FastSeen(k, s.word, c.spin)
    case LockCas(k, v) => FastSeen(k, s.word, c.spin)
    case UnlockLoad(nonempty, a) =>
      var v := Base(s.word) + if nonempty then 2 else 0;
      UnlockSwap(v, nonempty && v >= 4, a)
    case IdleLoad => IdleSwap(Base(s.word) + 4)
    case _ => p
  }

  lemma OtherStep(s: State, t: nat, c: Choice)
    requires Enabled(s, t, c) && OnlyMoves(s, t, c) && !IsIdle(s.pcs[t]) && !LockAttended(s.pcs[t])
    ensures Step(s, t, c) == s.At(t, OtherTo(s, s.pcs[t], c))
  {
  }

  lemma OtherMayMove(s: State, t: nat, c: Choice)
    requires Around(s, t) && OnlyMoves(s, t, c) && !IsIdle(s.pcs[t]) && !LockAttended(s.pcs[t])
    ensures MayMove(s, t, OtherTo(s, s.pcs[t], c))
  {
    hide Quiet;
  }

  lemma OnlyMovesKeeps(s: State, t: nat, c: Choice)
    requires Inv(s) && Enabled(s, t, c) && OnlyMoves(s, t, c)
    ensures Inv(Step(s, t, c))
  {
    ThreadAt(s, t);
    assert Around(s, t);
    hide *;
    if IsIdle(s.pcs[t]) {
      IdleStep(s, t, c);
      IdleMayMove(s, t, c);
      MovesAlone(s, t, IdleTo(s, t, c));
    } else if s.pcs[t].SlowTry? || s.pcs[t].SlowWait? || s.pcs[t].SlowLoad? {
      SlowStep(s, t, c);
      SlowMayMove(s, t, c);
      MovesAlone(s, t, SlowTo(s, s.pcs[t]));
    } else {
      NotSlow(s.pcs[t], s, t, c);
      OtherStep(s, t, c);
      OtherMayMove(s, t, c);
      MovesAlone(s, t, OtherTo(s, s.pcs[t], c));
    }
  }

  lemma NotSlow(p: PC, s: State, t: nat, c: Choice)
    requires t < |s.pcs| && p == s.pcs[t] && OnlyMoves(s, t, c) && !p.SlowTry? && !p.SlowWait? && !p.SlowLoad?
    ensures !LockAttended(p)
  {
  }

  // Wakes

  /** Moving to `p` after a wake is harmless for the thread itself. */
  predicate MayMoveWaking(s: State, t: nat, p: PC)
    requires Shape(s) && t < |s.pcs|
  {
    var q := s.pcs[t];
    && SameClass(q, p) && RoleOk(|s.pcs|, t, p, s.jobs[t]) && ValueOk(s, t, p)
    && !p.StopWake? && !p.Stopped? && !q.StopWake? && !q.Stopped? && !p.Exited?
    && !p.SlowAsleep? && !p.IdleAsleep? && !q.SlowAsleep? && !q.IdleAsleep?
  }

  /** Where nobody new falls asleep and no other wake is given up, the sleepers stay attended. */
  lemma SleepersKept(s: State, s': State, t: nat)
    requires Shape(s) && t < |s.pcs| && SameGlobals(s, s') && OthersRoused(s, s', t)
    requires !s'.pcs[t].SlowAsleep? && !s'.pcs[t].IdleAsleep?
    requires LockSleepersOk(s) && MainSleepOk(s)
    requires LockAttended(s.pcs[t]) ==>
      (exists u :: 0 <= u < |s.pcs| && LockAttended(s'.pcs[u])) || (forall u :: 0 <= u < |s.pcs| ==> !s'.pcs[u].SlowAsleep?)
    requires t != 0 && WakesMain(s.pcs[t], |s.pcs|) ==> WakesMain(s'.pcs[t], |s.pcs|) || !s'.pcs[0].IdleAsleep?
    ensures LockSleepersOk(s') && MainSleepOk(s')
  {
    forall v | 0 <= v < |s.pcs| && s'.pcs[v].SlowAsleep?
      ensures Tag(s.word) == 3 || exists x :: 0 <= x < |s.pcs| && LockAttended(s'.pcs[x]) {
      if Tag(s.word) != 3 && !LockAttended(s.pcs[t]) {
        assert s.pcs[v].SlowAsleep?;
        var x :| 0 <= x < |s.pcs| && LockAttended(s.pcs[x]);
        assert LockAttended(s'.pcs[x]);
      }
    }
    if s'.pcs[0].IdleAsleep? && s.word == 4 * |s.pcs| {
      assert s.pcs[0].IdleAsleep?;
      var v :| 1 <= v < |s.pcs| && WakesMain(s.pcs[v], |s.pcs|);
      assert WakesMain(s'.pcs[v], |s.pcs|);
    }
  }

  lemma StoppedKept(s: State, s': State, t: nat)
    requires Shape(s) && t < |s.pcs| && SameGlobals(s, s') && OthersRoused(s, s', t)
    requires StoppedOk(s) && MayMoveWaking(s, t, s'.pcs[t])
    ensures StoppedOk(s')
  {
  }

  lemma Unfold(s: State)
    requires Inv(s)
    ensures Shape(s) && AllOk(s) && (if s.stopped then StoppedOk(s) else WordOk(s))
    ensures LockSleepersOk(s) && MainSleepOk(s) && Accounted(s)
  {
  }

  /** A step that wakes somebody. */
  lemma WakingKeeps(s: State, s': State, t: nat)
    requires Inv(s) && t < |s.pcs| && SameGlobals(s, s') && OthersRoused(s, s', t)
    requires MayMoveWaking(s, t, s'.pcs[t])
    requires LockAttended(s.pcs[t]) ==>
      (exists u :: 0 <= u < |s.pcs| && LockAttended(s'.pcs[u])) || (forall u :: 0 <= u < |s.pcs| ==> !s'.pcs[u].SlowAsleep?)
    requires t != 0 && WakesMain(s.pcs[t], |s.pcs|) ==> WakesMain(s'.pcs[t], |s.pcs|) || !s'.pcs[0].IdleAsleep?
    ensures Inv(s')
  {
    Unfold(s);
    hide Inv;
    SleepersKept(s, s', t);
    if s.stopped {
      StoppedKept(s, s', t);
    }
    hide LockSleepersOk, MainSleepOk, WordOk, StoppedOk, Accounted, AllOk;
    Moves(s, s', t);
  }

  predicate OnlyWakes(p: PC) {
    p.UnlockWakeLock? || p.UnlockWakeWork? || p.IdleWakeLock? || p.IdleWakeMain?
  }

  /** Where a waking step goes. */
  function AfterWake(s: State, t: nat, c: Choice): PC
    requires Enabled(s, t, c) && OnlyWakes(s.pcs[t])
  {
    match s.pcs[t]
    case UnlockWakeLock(wake, a) =>
      if !LockSleeper(s.pcs[c.who]) && wake then UnlockWakeWork(a) else Return(a)
    case UnlockWakeWork(a) => Return(a)
    case IdleWakeLock(v) => IdleEntered(t, |s.pcs|, v)
    case IdleWakeMain(v) => IdleSpin(v)
    case _ => Exited
  }

  lemma WakesMayMove(s: State, t: nat, c: Choice)
    requires Shape(s) && Enabled(s, t, c) && ThreadOk(s, t) && OnlyWakes(s.pcs[t])
    ensures MayMoveWaking(s, t, AfterWake(s, t, c))
    ensures s.pcs[t].IdleWakeLock? && t != 0 && WakesMain(s.pcs[t], |s.pcs|) ==> WakesMain(AfterWake(s, t, c), |s.pcs|)
  {
    hide Quiet;
  }

  lemma OnlyWakesKeeps(s: State, t: nat, c: Choice)
    requires Inv(s) && Enabled(s, t, c) && OnlyWakes(s.pcs[t])
    ensures Inv(Step(s, t, c))
  {
    hide Inv, MayMoveWaking;
    ThreadAt(s, t);
    WakesMayMove(s, t, c);
    var s' := Step(s, t, c);
    WakeStep(s, t, c);
    WakingKeeps(s, s', t);
  }

  /** The shape of a waking step: if a lock sleeper is woken, it attends to the rest; if none is, there is none. */
  lemma WakeStep(s: State, t: nat, c: Choice)
    requires Shape(s) && Enabled(s, t, c) && OnlyWakes(s.pcs[t])
    ensures var s' := Step(s, t, c);
      && SameGlobals(s, s') && OthersRoused(s, s', t) && s'.pcs[t] == AfterWake(s, t, c)
      && (LockAttended(s.pcs[t]) ==>
           (exists u :: 0 <= u < |s.pcs| && LockAttended(s'.pcs[u])) || (forall u :: 0 <= u < |s.pcs| ==> !s'.pcs[u].SlowAsleep?))
      && (s.pcs[t].IdleWakeMain? ==> !s'.pcs[0].IdleAsleep?)
  {
    var s' := Step(s, t, c);
    if LockAttended(s.pcs[t]) && LockSleeper(s.pcs[c.who]) {
      assert LockAttended(s'.pcs[c.who]);
    }
  }

  lemma StopWakeKeeps(s: State, t: nat, c: Choice)
    requires Inv(s) && Enabled(s, t, c) && s.pcs[t].StopWake?
    ensures Inv(Step(s, t, c))
  {
    ThreadAt(s, t);
    Unfold(s);
    hide Inv;
    AllRoused(s, c);
    hide *;
    Moves(s, Step(s, t, c), t);
  }

  lemma AllRoused(s: State, c: Choice)
    requires Shape(s) && s.stopped && StoppedOk(s) && Enabled(s, 0, c) && s.pcs[0].StopWake? && ThreadOk(s, 0)
    ensures var s' := Step(s, 0, c);
      && SameGlobals(s, s') && OthersRoused(s, s', 0) && SameClass(s.pcs[0], s'.pcs[0])
      && RoleOk(|s.pcs|, 0, s'.pcs[0], s.jobs[0]) && ValueOk(s, 0, s'.pcs[0])
      && StoppedOk(s') && LockSleepersOk(s') && MainSleepOk(s')
  {
    var s' := Step(s, 0, c);
    assert s' == s.(pcs := WakeAll(s.pcs)[0 := Stopped]);
    hide Step, Enabled;
  }

  lemma RousedMayMove(s: State, t: nat)
    requires Shape(s) && t < |s.pcs| && ThreadOk(s, t) && (s.pcs[t].SlowAsleep? || s.pcs[t].IdleAsleep?)
    ensures MayMove(s, t, Roused(s.pcs[t]))
  {
    RousedIsFine(s, |s.pcs|, t, s.pcs[t], s.jobs[t]);
    hide ValueOk;
  }

  lemma SpuriousKeeps(s: State, s': State)
    requires Inv(s) && Spurious(s, s')
    ensures Inv(s')
  {
    var t :| 0 <= t < |s.pcs| && s' == s.At(t, Roused(s.pcs[t]));
    ThreadAt(s, t);
    hide Inv;
    if s.pcs[t].SlowAsleep? || s.pcs[t].IdleAsleep? {
      RousedMayMove(s, t);
      hide *;
      MovesAlone(s, t, Roused(s.pcs[t]));
    } else {
      assert s'.pcs == s.pcs;
    }
  }

  // Steps that change the word, the stack or the accounts

  /** Only thread `t` moves, to `p` with job `j`. */
  predicate OnlyThread(s: State, s': State, t: nat, p: PC, j: Option<Unit>)
    requires Shape(s) && t < |s.pcs|
  {
    s'.pcs == s.pcs[t := p] && s'.jobs == s.jobs[t := j] && s'.stopped == s.stopped
  }

  /** The other threads' remembered values stay right: they hold no lock, and thread 0 does not count on quiet. */
  lemma OthersUndisturbed(s: State, s': State, t: nat, p: PC, j: Option<Unit>, u: nat)
    requires Shape(s) && AllOk(s) && WordOk(s) && t < |s.pcs| && u < |s.pcs| && u != t
    requires OnlyThread(s, s', t, p, j)
    requires Locked(s.word) && !Holds(s.pcs[t]) ==> s'.stack == s.stack && Idle(s'.word) == Idle(s.word)
    requires t == 0 || !IsIdle(s.pcs[t]) || s.stack != []
    ensures ThreadOk(s', u)
  {
    assert ThreadOk(s, u);
    if Holds(s.pcs[u]) {
      CountBounds(Holds, s.pcs);
      if Holds(s.pcs[t]) {
        if t < u { CountTwo(Holds, s.pcs, t, u); } else { CountTwo(Holds, s.pcs, u, t); }
      }
    }
    CountBounds(IsIdle, s.pcs);
    if u == 0 && (s.pcs[0].Outside? || s.pcs[0].StopStore?) && !IsIdle(s.pcs[t]) {
      CountMissing(IsIdle, s.pcs, 0, t);
    }
    hide Count;
  }

  /** What the changed thread itself has to satisfy for the lock word to stay right. */
  predicate WordFits(s: State, s': State, t: nat, p: PC)
    requires Shape(s) && t < |s.pcs|
  {
    var idle := Count(IsIdle, s.pcs) - (if IsIdle(s.pcs[t]) then 1 else 0) + (if IsIdle(p) then 1 else 0);
    && Idle(s'.word) == idle
    && (Locked(s'.word) == if Holds(s.pcs[t]) != Holds(p) then !Locked(s.word) else Locked(s.word))
    && (!Locked(s'.word) ==> Tag(s'.word) == if s'.stack != [] then 2 else 0)
    && (idle == |s.pcs| ==> s'.stack == [])
    && !p.Exited? && !p.StopWake? && !p.Stopped?
  }

  lemma WordKept(s: State, s': State, t: nat, p: PC, j: Option<Unit>)
    requires Shape(s) && WordOk(s) && t < |s.pcs| && OnlyThread(s, s', t, p, j) && WordFits(s, s', t, p)
    requires Holds(p) && !Holds(s.pcs[t]) ==> !Locked(s.word)
    ensures WordOk(s')
  {
    CountUpdate(IsIdle, s.pcs, t, p);
    CountUpdate(Holds, s.pcs, t, p);
    CountBounds(Holds, s.pcs);
  }

  /** The sleepers are still looked after. */
  lemma SleepersAttended(s: State, s': State, t: nat, p: PC, j: Option<Unit>)
    requires Shape(s) && LockSleepersOk(s) && MainSleepOk(s) && t < |s.pcs| && OnlyThread(s, s', t, p, j)
    requires !p.SlowAsleep? && !p.IdleAsleep?
    requires Tag(s'.word) == 3 || LockAttended(p) || (Tag(s.word) != 3 && !LockAttended(s.pcs[t]))
    requires || s'.word != 4 * |s.pcs| || t == 0 || WakesMain(p, |s.pcs|)
             || (s'.word == s.word && !WakesMain(s.pcs[t], |s.pcs|))
    ensures LockSleepersOk(s') && MainSleepOk(s')
  {
    forall v | 0 <= v < |s.pcs| && s'.pcs[v].SlowAsleep?
      ensures Tag(s'.word) == 3 || exists x :: 0 <= x < |s.pcs| && LockAttended(s'.pcs[x]) {
      if LockAttended(p) {
        assert LockAttended(s'.pcs[t]);
      } else if Tag(s'.word) != 3 {
        assert s.pcs[v].SlowAsleep?;
        var x :| 0 <= x < |s.pcs| && LockAttended(s.pcs[x]);
        assert LockAttended(s'.pcs[x]);
      }
    }
    if s'.pcs[0].IdleAsleep? && s'.word == 4 * |s.pcs| && t != 0 {
      if WakesMain(p, |s.pcs|) {
        assert WakesMain(s'.pcs[t], |s.pcs|);
      } else {
        var v :| 1 <= v < |s.pcs| && WakesMain(s.pcs[v], |s.pcs|);
        assert WakesMain(s'.pcs[v], |s.pcs|);
      }
    }
  }

  /** What the step submits, hands over or finishes adds up. */
  predicate Balanced(s: State, s': State, t: nat, p: PC, j: Option<Unit>)
    requires Shape(s) && t < |s.pcs|
  {
    s'.submitted + Owed(s.pcs[t], s.jobs[t]) + StackUnits(s.stack) + s.done
    == s.submitted + Owed(p, j) + StackUnits(s'.stack) + s'.done
  }

  /** The accounts still balance. */
  lemma AccountsKept(s: State, s': State, t: nat, p: PC, j: Option<Unit>)
    requires Shape(s) && Accounted(s) && t < |s.pcs| && OnlyThread(s, s', t, p, j)
    requires Balanced(s, s', t, p, j)
    ensures Accounted(s')
  {
    OwedUpdate(s.pcs, s.jobs, t, p, j);
    Balance(s.submitted, s'.submitted, StackUnits(s.stack), StackUnits(s'.stack), s.done, s'.done,
            AllOwed(s.pcs, s.jobs), AllOwed(s'.pcs, s'.jobs), Owed(s.pcs[t], s.jobs[t]), Owed(p, j));
  }

  lemma Balance(sub: multiset<Unit>, sub': multiset<Unit>, st: multiset<Unit>, st': multiset<Unit>,
                d: multiset<Unit>, d': multiset<Unit>, a: multiset<Unit>, a': multiset<Unit>, o: multiset<Unit>, o': multiset<Unit>)
    requires sub == st + a + d && a' + o == a + o'
    requires sub' + o + st + d == sub + o' + st' + d'
    ensures sub' == st' + a' + d'
  {
    forall x ensures sub'[x] == (st' + a' + d')[x] {
      assert sub[x] == st[x] + a[x] + d[x];
      assert (a' + o)[x] == (a + o')[x];
      assert (sub' + o + st + d)[x] == (sub + o' + st' + d')[x];
    }
  }

  /** The change fits the rest of the invariant: the word, what thread `t` is left with, and the sleepers. */
  predicate Fits(s: State, s': State, t: nat, p: PC, j: Option<Unit>)
    requires Shape(s) && t < |s.pcs|
  {
    && (Locked(s.word) && !Holds(s.pcs[t]) ==> s'.stack == s.stack && Idle(s'.word) == Idle(s.word))
    && (t == 0 || !IsIdle(s.pcs[t]) || s.stack != [])
    && RoleOk(|s.pcs|, t, p, j) && (Shape(s') && WordOk(s') ==> ValueOk(s', t, p))
    && WordFits(s, s', t, p) && (Holds(p) && !Holds(s.pcs[t]) ==> !Locked(s.word))
    && !p.SlowAsleep? && !p.IdleAsleep?
    && (Tag(s'.word) == 3 || LockAttended(p) || (Tag(s.word) != 3 && !LockAttended(s.pcs[t])))
    && (s'.word != 4 * |s.pcs| || t == 0 || WakesMain(p, |s.pcs|)
        || (s'.word == s.word && !WakesMain(s.pcs[t], |s.pcs|)))
  }

  /** A step of one thread that changes the word, the stack or the accounts. */
  lemma Changes(s: State, s': State, t: nat, p: PC, j: Option<Unit>)
    requires Inv(s) && !s.stopped && t < |s.pcs| && OnlyThread(s, s', t, p, j)
    requires Fits(s, s', t, p, j) && Balanced(s, s', t, p, j)
    ensures Inv(s')
  {
    hide Balanced;
    Unfold(s);
    hide Inv;
    SleepersAttended(s, s', t, p, j);
    AccountsKept(s, s', t, p, j);
    WordKept(s, s', t, p, j);
    hide StackUnits, Owed, ValueOk, RoleOk, WordFits;
    forall u | 0 <= u < |s.pcs| ensures ThreadOk(s', u) {
      if u != t {
        OthersUndisturbed(s, s', t, p, j, u);
      }
    }
    Fold(s');
  }

  lemma Fold(s: State)
    requires Shape(s) && AllOk(s) && (if s.stopped then StoppedOk(s) else WordOk(s))
    requires LockSleepersOk(s) && MainSleepOk(s) && Accounted(s)
    ensures Inv(s)
  {
  }
}
