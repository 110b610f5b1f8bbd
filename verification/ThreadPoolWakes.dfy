/** No wake-up of a waiting worker is lost: while there is work and somebody idle, somebody awake will see to it. */
module ThreadPoolWakes {
  import opened ThreadPool
  import opened ThreadPoolInvariant
  import opened ThreadPoolSteps
  import opened ThreadPoolRuns
  import opened ThreadPoolSpin
  import opened ThreadPoolProgress

  /** The thread waits awake, is about to wake a worker or to ask for the lock, or asks for it: it comes across the work. */
  predicate SeesWork(p: PC) {
    || (IsIdle(p) && !p.IdleAsleep? && !p.MainStore? && !p.Exited?)
    || p.UnlockWakeWork? || (p.UnlockWakeLock? && p.wake) || Acquiring(p)
  }

  /** A waiting thread has not seen work, and an unlock that leaves work with somebody idle will wake. */
  predicate Remembers(p: PC) {
    match p
    case IdleSpin(v) => Tag(v) != 2
    case IdleWait(v) => Tag(v) != 2
    case UnlockSwap(v, wake, _) => wake == (Tag(v) == 2 && Idle(v) >= 1)
    case _ => true
  }

  ghost predicate WorkSeen(s: State) {
    !s.stopped && Tag(s.word) == 2 && Idle(s.word) >= 1 ==> exists u :: 0 <= u < |s.pcs| && SeesWork(s.pcs[u])
  }

  ghost predicate Alert(s: State) {
    (forall t :: 0 <= t < |s.pcs| ==> Remembers(s.pcs[t])) && WorkSeen(s)
  }

  lemma InitAlert(s: State)
    requires Init(s)
    ensures Alert(s)
  {
  }

  /** Thread `t` has moved, and perhaps roused others; whatever shows work then has somebody who sees it. */
  lemma MoveAlert(s: State, s': State, t: nat)
    requires Alert(s) && t < |s.pcs| == |s'.pcs| && OthersRoused(s, s', t) && Remembers(s'.pcs[t])
    requires !s'.stopped && Tag(s'.word) == 2 && Idle(s'.word) >= 1 ==>
      || (s'.word == s.word && s'.stopped == s.stopped && !SeesWork(s.pcs[t]))
      || exists u :: 0 <= u < |s'.pcs| && SeesWork(s'.pcs[u])
    ensures Alert(s')
  {
    hide Remembers, SeesWork, Tag, Idle, Roused;
    forall u | 0 <= u < |s'.pcs| ensures Remembers(s'.pcs[u]) {
      if u != t {
        RousedSees(s.pcs[u]);
      }
    }
    if !s'.stopped && Tag(s'.word) == 2 && Idle(s'.word) >= 1 && s'.word == s.word && s'.stopped == s.stopped && !SeesWork(s.pcs[t]) {
      var u :| 0 <= u < |s.pcs| && SeesWork(s.pcs[u]);
      RousedSees(s.pcs[u]);
      assert SeesWork(s'.pcs[u]);
    }
  }

  lemma RousedSees(p: PC)
    ensures Remembers(p) ==> Remembers(Roused(p))
    ensures SeesWork(p) ==> SeesWork(Roused(p))
  {
  }

  /** One thread alone has moved: it sees the work if there is any, or did not before. */
  lemma AloneAlert(s: State, t: nat, p: PC)
    requires Alert(s) && t < |s.pcs| && Remembers(p)
    requires !s.stopped && Tag(s.word) == 2 && SeesWork(s.pcs[t]) ==> SeesWork(p)
    ensures Alert(s.At(t, p))
  {
    var s' := s.At(t, p);
    hide Remembers, SeesWork, Alert;
    assert s'.pcs[t] == p;
    MoveAlert(s, s', t);
  }

  // The steps that only move one program counter

  lemma IdleAlert(s: State, t: nat, c: Choice)
    requires Around(s, t) && Remembers(s.pcs[t]) && OnlyMoves(s, t, c) && IsIdle(s.pcs[t])
    requires !s.stopped && Tag(s.word) == 2 ==> s.stack != []
    ensures Remembers(IdleTo(s, t, c))
    ensures !s.stopped && Tag(s.word) == 2 ==> SeesWork(IdleTo(s, t, c))
  {
  }

  lemma SlowAlert(s: State, t: nat, c: Choice)
    requires Around(s, t) && OnlyMoves(s, t, c) && (s.pcs[t].SlowTry? || s.pcs[t].SlowWait? || s.pcs[t].SlowLoad?)
    ensures Remembers(SlowTo(s, s.pcs[t]))
    ensures Tag(s.word) == 2 ==> SeesWork(SlowTo(s, s.pcs[t]))
  {
    hide Quiet;
  }

  lemma OtherAlert(s: State, t: nat, c: Choice)
    requires Around(s, t) && OnlyMoves(s, t, c) && !IsIdle(s.pcs[t]) && !LockAttended(s.pcs[t])
    ensures Remembers(OtherTo(s, s.pcs[t], c))
    ensures Tag(s.word) == 2 && SeesWork(s.pcs[t]) ==> SeesWork(OtherTo(s, s.pcs[t], c))
  {
    hide Quiet;
  }

  lemma OnlyMovesAlert(s: State, t: nat, c: Choice)
    requires Inv(s) && Alert(s) && Enabled(s, t, c) && OnlyMoves(s, t, c)
    ensures Alert(Step(s, t, c))
  {
    ThreadAt(s, t);
    assert Around(s, t) && Remembers(s.pcs[t]) && (!s.stopped && Tag(s.word) == 2 ==> s.stack != []);
    NotWaking(s, t, c);
    hide *;
    if IsIdle(s.pcs[t]) {
      IdleStep(s, t, c);
      IdleAlert(s, t, c);
      AloneAlert(s, t, IdleTo(s, t, c));
    } else if s.pcs[t].SlowTry? || s.pcs[t].SlowWait? || s.pcs[t].SlowLoad? {
      SlowStep(s, t, c);
      SlowAlert(s, t, c);
      AloneAlert(s, t, SlowTo(s, s.pcs[t]));
    } else {
      OtherStep(s, t, c);
      OtherAlert(s, t, c);
      AloneAlert(s, t, OtherTo(s, s.pcs[t], c));
    }
  }

  lemma NotWaking(s: State, t: nat, c: Choice)
    requires t < |s.pcs| && OnlyMoves(s, t, c)
    ensures LockAttended(s.pcs[t]) ==> IsIdle(s.pcs[t]) || s.pcs[t].SlowTry? || s.pcs[t].SlowWait? || s.pcs[t].SlowLoad?
  {
  }

  // The steps that wake

  lemma WakesAlert(s: State, t: nat, c: Choice)
    requires Inv(s) && Alert(s) && Enabled(s, t, c) && OnlyWakes(s.pcs[t])
    ensures Alert(Step(s, t, c))
  {
    ThreadAt(s, t);
    WakeStep(s, t, c);
    AfterWakeRemembers(s, t, c);
    var s' := Step(s, t, c);
    if !s.stopped && Tag(s.word) == 2 && Idle(s.word) >= 1 && SeesWork(s.pcs[t]) {
      var u := WokenSees(s, t, c);
    }
    hide Inv, Step, Enabled, Remembers, SeesWork, Alert, Tag, Idle;
    MoveAlert(s, s', t);
  }

  lemma AfterWakeRemembers(s: State, t: nat, c: Choice)
    requires Shape(s) && Enabled(s, t, c) && ThreadOk(s, t) && OnlyWakes(s.pcs[t])
    ensures Remembers(AfterWake(s, t, c))
  {
    hide Quiet;
  }

  lemma WokenSees(s: State, t: nat, c: Choice) returns (u: nat)
    requires Inv(s) && Enabled(s, t, c) && OnlyWakes(s.pcs[t]) && SeesWork(s.pcs[t]) && !s.stopped && Idle(s.word) >= 1
    ensures u < |Step(s, t, c).pcs| && SeesWork(Step(s, t, c).pcs[u])
  {
    var p := s.pcs[t];
    WakeStep(s, t, c);
    if p.UnlockWakeWork? {
      u := WokenWorker(s, t, c);
    } else if p.UnlockWakeLock? && LockSleeper(s.pcs[c.who]) {
      u := c.who;
    } else {
      u := t;
      hide Inv, Step, Idle;
    }
  }

  /** A worker has been woken, or none was asleep, and then one that waits awake is there. */
  lemma WokenWorker(s: State, t: nat, c: Choice) returns (u: nat)
    requires Inv(s) && Enabled(s, t, c) && s.pcs[t].UnlockWakeWork? && !s.stopped && Idle(s.word) >= 1
    ensures u < |Step(s, t, c).pcs| && SeesWork(Step(s, t, c).pcs[u])
  {
    if IdleSleeper(s.pcs[c.who]) {
      u := c.who;
    } else {
      CountBounds(IsIdle, s.pcs);
      u :| 0 <= u < |s.pcs| && IsIdle(s.pcs[u]);
      ThreadAt(s, u);
    }
  }

  // The steps that change the word or the stack

  lemma UnlockAlert(s: State, t: nat, c: Choice)
    requires Inv(s) && Alert(s) && Enabled(s, t, c) && s.pcs[t].UnlockSwap?
    ensures Alert(Step(s, t, c))
  {
    HolderStep(s, t, c);
    var s', p := Step(s, t, c), s.pcs[t];
    assert Remembers(p);
    hide Inv, Step, Enabled, Alert;
    assert Tag(p.v) == 2 && Idle(p.v) >= 1 ==> SeesWork(s'.pcs[t]);
    assert Remembers(s'.pcs[t]);
    hide Remembers, SeesWork, Tag, Idle;
    MoveAlert(s, s', t);
  }

  /** A step after which the word shows no work, or that leaves the word alone in a thread that did not see it. */
  lemma PlainAlert(s: State, s': State, t: nat)
    requires Alert(s) && t < |s.pcs| == |s'.pcs| && s'.pcs == s.pcs[t := s'.pcs[t]] && Remembers(s'.pcs[t])
    requires s'.stopped || Tag(s'.word) != 2 || (s'.word == s.word && s'.stopped == s.stopped && !SeesWork(s.pcs[t]))
    ensures Alert(s')
  {
    hide Remembers, SeesWork, Alert, Tag, Idle;
    MoveAlert(s, s', t);
  }

  /** User code and the run loop. */
  lemma RunAlert(s: State, t: nat, c: Choice)
    requires Alert(s) && Enabled(s, t, c) && (s.pcs[t].User? || s.pcs[t].Closure? || s.pcs[t].Holding?)
    ensures Alert(Step(s, t, c))
  {
    var s' := Step(s, t, c);
    hide Alert, Tag, Idle, Base, Picks;
    assert t < |s'.pcs| && s'.pcs == s.pcs[t := s'.pcs[t]] && Remembers(s'.pcs[t]);
    assert s'.word == s.word && s'.stopped == s.stopped && !SeesWork(s.pcs[t]);
    hide *;
    PlainAlert(s, s', t);
  }

  /** Taking the lock, marking it, and the stores of threads that go to wait, return or stop. */
  lemma StoreAlert(s: State, t: nat, c: Choice)
    requires Inv(s) && Alert(s) && Enabled(s, t, c) && !OnlyMoves(s, t, c)
    requires var p := s.pcs[t]; p.LockCas? || p.SlowTry? || p.IdleCas? || p.IdleSwap? || p.MainStore? || p.StopStore?
    ensures Alert(Step(s, t, c))
  {
    StoreTags(s, t, c);
    hide *;
    StoreShape(s, t, c);
    PlainAlert(s, Step(s, t, c), t);
  }

  /** What the stores leave of the tag. */
  predicate StoresTag(p: PC) {
    && (p.LockCas? ==> Tag(Base(p.v) + 1) == 1) && (p.SlowTry? ==> Tag(Base(p.v) + 3) == 3)
    && (p.IdleCas? ==> p.v >= 5 && Tag(p.v - 4 - 2 + 1) == 1) && (p.IdleSwap? ==> Tag(p.v) == 0)
    && (p.MainStore? ==> p.v >= 4 && Tag(p.v - 4) == 0)
  }

  lemma StoreTags(s: State, t: nat, c: Choice)
    requires Inv(s) && t < |s.pcs|
    ensures StoresTag(s.pcs[t])
  {
    ThreadAt(s, t);
    var p := s.pcs[t];
    hide Inv;
    LockTags(if p.LockCas? || p.SlowTry? || p.IdleCas? || p.MainStore? then p.v else 0);
    hide Base, Quiet;
  }

  lemma StoreShape(s: State, t: nat, c: Choice)
    requires Enabled(s, t, c) && !OnlyMoves(s, t, c)
    requires var p := s.pcs[t]; p.LockCas? || p.SlowTry? || p.IdleCas? || p.IdleSwap? || p.MainStore? || p.StopStore?
    requires StoresTag(s.pcs[t])
    ensures var s' := Step(s, t, c);
      && t < |s'.pcs| == |s.pcs| && s'.pcs == s.pcs[t := s'.pcs[t]] && Remembers(s'.pcs[t]) && (s'.stopped || Tag(s'.word) != 2)
  {
    hide Base, Idle, Locked, Picks, FastSeen, IdleSeen;
  }

  lemma LockTags(v: nat)
    ensures Tag(Base(v) + 1) == 1 && Tag(Base(v) + 3) == 3
    ensures Tag(v) == 2 && v >= 4 ==> v >= 5 && Tag(v - 4 - 2 + 1) == 1
    ensures v >= 4 ==> Tag(v - 4) == Tag(v)
  {
  }

  lemma StepAlert(s: State, t: nat, c: Choice)
    requires Inv(s) && Alert(s) && Enabled(s, t, c)
    ensures Alert(Step(s, t, c))
  {
    hide Inv, Step, Alert;
    if OnlyMoves(s, t, c) {
      OnlyMovesAlert(s, t, c);
    } else if OnlyWakes(s.pcs[t]) {
      WakesAlert(s, t, c);
    } else {
      match s.pcs[t]
      case Closure => RunAlert(s, t, c);
      case User => RunAlert(s, t, c);
      case Holding(_) => RunAlert(s, t, c);
      case LockCas(_, _) => StoreAlert(s, t, c);
      case SlowTry(_, _) => StoreAlert(s, t, c);
      case IdleCas(_) => StoreAlert(s, t, c);
      case IdleSwap(_) => StoreAlert(s, t, c);
      case MainStore(_) => StoreAlert(s, t, c);
      case StopStore => StoreAlert(s, t, c);
      case UnlockSwap(_, _, _) => UnlockAlert(s, t, c);
      case StopWake => StopAlert(s, t, c);
      case _ =>
    }
  }

  lemma StopAlert(s: State, t: nat, c: Choice)
    requires Inv(s) && Alert(s) && Enabled(s, t, c) && s.pcs[t].StopWake?
    ensures Alert(Step(s, t, c))
  {
    ThreadAt(s, t);
    var s' := Step(s, t, c);
    assert s.stopped && s'.stopped && s'.pcs == WakeAll(s.pcs)[t := Stopped];
    hide Inv, Step, Enabled, Tag, Idle;
    forall u | 0 <= u < |s'.pcs| ensures Remembers(s'.pcs[u]) {
      RousedSees(s.pcs[u]);
      assert u != t ==> s'.pcs[u] == Roused(s.pcs[u]);
    }
  }

  lemma SpuriousAlert(s: State, s': State)
    requires Alert(s) && Spurious(s, s')
    ensures Alert(s')
  {
    var t: nat :| 0 <= t < |s.pcs| && s' == s.At(t, Roused(s.pcs[t]));
    RousedSees(s.pcs[t]);
    assert Remembers(s.pcs[t]);
    hide Remembers, SeesWork, Alert, Tag, Idle, Roused;
    AloneAlert(s, t, Roused(s.pcs[t]));
  }

  lemma {:induction false} RunsAlert(r: seq<State>, i: nat)
    requires IsRun(r) && i < |r|
    ensures Alert(r[i])
  {
    if i == 0 {
      InitAlert(r[0]);
    } else {
      RunsAlert(r, i - 1);
      RunKeeps(r, i - 1);
      hide Inv, Step, Enabled, Alert;
      assert Next(r[i - 1], r[i - 1 + 1]);
      if Spurious(r[i - 1], r[i]) {
        SpuriousAlert(r[i - 1], r[i]);
      } else {
        var t: nat, c: Choice :| Enabled(r[i - 1], t, c) && r[i] == Step(r[i - 1], t, c);
        StepAlert(r[i - 1], t, c);
      }
    }
  }

  /** No wake-up is lost, in every reachable state before `stop`: if the word shows work and counts somebody idle, then
      some thread waits awake, or is about to wake a worker, or asks for the lock awake. */
  lemma WorkIsSeen(r: seq<State>, i: nat)
    requires IsRun(r) && i < |r| && !r[i].stopped && Tag(r[i].word) == 2 && Idle(r[i].word) >= 1
    ensures exists u :: 0 <= u < |r[i].pcs| && SeesWork(r[i].pcs[u])
  {
    RunsAlert(r, i);
    hide SeesWork, Tag, Idle, IsRun;
  }

  /** The same for the spinning version, where the word is the same. */
  lemma SpinWorkIsSeen(r: seq<State>, i: nat)
    requires IsSpinRun(r) && i < |r| && !r[i].stopped && Tag(r[i].word) == 2 && Idle(r[i].word) >= 1
    ensures exists u :: 0 <= u < |r[i].pcs| && SeesWork(r[i].pcs[u])
  {
    var f := SpinRefines(r, i);
    hide SeesWork, Tag, Idle, IsRun, IsSpinRun;
    WorkIsSeen(f, |f| - 1);
  }
}
