/** The invariant of the thread pool: every step keeps it, so it holds in every reachable state. */
module ThreadPoolInvariant {
  import opened Wrappers
  import opened ThreadPool

  // Counting threads

  function Count(f: PC -> bool, pcs: seq<PC>): nat {
    if pcs == [] then 0 else Count(f, pcs[..|pcs| - 1]) + if f(pcs[|pcs| - 1]) then 1 else 0
  }

  lemma {:induction false} CountUpdate(f: PC -> bool, pcs: seq<PC>, t: nat, p: PC)
    requires t < |pcs|
    ensures Count(f, pcs[t := p]) == Count(f, pcs) - (if f(pcs[t]) then 1 else 0) + if f(p) then 1 else 0
    decreases |pcs|
  {
    var n := |pcs| - 1;
    if t == n {
      assert pcs[t := p][..n] == pcs[..n];
    } else {
      CountUpdate(f, pcs[..n], t, p);
      assert pcs[t := p][..n] == pcs[..n][t := p];
    }
  }

  lemma {:induction false} CountBounds(f: PC -> bool, pcs: seq<PC>)
    ensures Count(f, pcs) <= |pcs|
    ensures Count(f, pcs) == |pcs| <==> forall i :: 0 <= i < |pcs| ==> f(pcs[i])
    ensures Count(f, pcs) == 0 <==> forall i :: 0 <= i < |pcs| ==> !f(pcs[i])
    decreases |pcs|
  {
    if pcs != [] {
      CountBounds(f, pcs[..|pcs| - 1]);
      var n := |pcs| - 1;
      assert forall i :: 0 <= i < n ==> pcs[..n][i] == pcs[i];
      if forall i :: 0 <= i < n ==> f(pcs[..n][i]) {
        assert forall i :: 0 <= i < n ==> f(pcs[i]);
      }
    }
  }

  /** With two different threads in the set, the count is at least two. */
  lemma {:induction false} CountTwo(f: PC -> bool, pcs: seq<PC>, t: nat, u: nat)
    requires t < u < |pcs| && f(pcs[t]) && f(pcs[u])
    ensures Count(f, pcs) >= 2
    decreases |pcs|
  {
    var n := |pcs| - 1;
    if u == n {
      CountBounds(f, pcs[..n]);
      assert f(pcs[..n][t]);
    } else {
      CountTwo(f, pcs[..n], t, u);
    }
  }

  /** With two different threads outside of the set, the count is at most n - 2. */
  lemma {:induction false} CountMissing(f: PC -> bool, pcs: seq<PC>, t: nat, u: nat)
    requires t < u < |pcs| && !f(pcs[t]) && !f(pcs[u])
    ensures Count(f, pcs) <= |pcs| - 2
    decreases |pcs|
  {
    var n := |pcs| - 1;
    CountBounds(f, pcs[..n]);
    if u == n {
      assert !f(pcs[..n][t]);
    } else {
      CountMissing(f, pcs[..n], t, u);
    }
  }

  lemma {:induction false} CountSame(f: PC -> bool, pcs: seq<PC>, qs: seq<PC>)
    requires |pcs| == |qs| && forall i :: 0 <= i < |pcs| ==> f(pcs[i]) == f(qs[i])
    ensures Count(f, pcs) == Count(f, qs)
    decreases |pcs|
  {
    if pcs != [] {
      CountSame(f, pcs[..|pcs| - 1], qs[..|qs| - 1]);
    }
  }

  /** The thread is counted in the idle field of the lock word. */
  const IsIdle: PC -> bool := (p: PC) =>
    p.IdleWakeLock? || p.IdleWakeMain? || p.IdleSpin? || p.IdleWait? || p.IdleAsleep? || p.IdleReload? || p.IdleCas?
    || p.MainStore? || p.Exited?

  /** The thread holds the lock. */
  const Holds: PC -> bool := (p: PC) =>
    p.Holding? || p.UnlockLoad? || p.UnlockSwap? || p.IdleLoad? || p.IdleSwap?

  // What each thread owes

  /** The thread is on its way to push a task. */
  predicate Pushing(p: PC) {
    (p.LockLoad? || p.LockCas? || p.SlowTry? || p.SlowWait? || p.SlowAsleep? || p.SlowLoad? || p.Holding?) && p.k.Push?
  }

  /** Where the thread goes on once it has unlocked; it is in user code or about to return there. */
  function Later(p: PC): Option<After> {
    if Pushing(p) then Some(p.k.after)
    else if p.UnlockLoad? || p.UnlockSwap? || p.UnlockWakeLock? || p.UnlockWakeWork? then Some(p.after)
    else if p.User? then Some(ToUser)
    else if p.Closure? then Some(ToClosure)
    else None
  }

  function Owed(p: PC, job: Option<Unit>): multiset<Unit> {
    (if Pushing(p) then Units(p.k.task) else multiset{}) + (if job.Some? then multiset{job.value} else multiset{})
  }

  function AllOwed(pcs: seq<PC>, jobs: seq<Option<Unit>>): multiset<Unit>
    requires |pcs| == |jobs|
  {
    if pcs == [] then multiset{}
    else AllOwed(pcs[..|pcs| - 1], jobs[..|pcs| - 1]) + Owed(pcs[|pcs| - 1], jobs[|pcs| - 1])
  }

  lemma {:induction false} OwedUpdate(pcs: seq<PC>, jobs: seq<Option<Unit>>, t: nat, p: PC, j: Option<Unit>)
    requires t < |pcs| == |jobs|
    ensures AllOwed(pcs[t := p], jobs[t := j]) + Owed(pcs[t], jobs[t]) == AllOwed(pcs, jobs) + Owed(p, j)
    decreases |pcs|
  {
    hide Owed;
    var n := |pcs| - 1;
    if t == n {
      assert pcs[t := p][..n] == pcs[..n] && jobs[t := j][..n] == jobs[..n];
    } else {
      OwedUpdate(pcs[..n], jobs[..n], t, p, j);
      assert pcs[t := p][..n] == pcs[..n][t := p] && jobs[t := j][..n] == jobs[..n][t := j];
      var last := Owed(pcs[n], jobs[n]);
      assert AllOwed(pcs[t := p], jobs[t := j]) == AllOwed(pcs[..n][t := p], jobs[..n][t := j]) + last;
      assert AllOwed(pcs, jobs) == AllOwed(pcs[..n], jobs[..n]) + last;
      AddToBoth(AllOwed(pcs[..n][t := p], jobs[..n][t := j]), Owed(pcs[t], jobs[t]),
                AllOwed(pcs[..n], jobs[..n]), Owed(p, j), last);
    }
  }

  lemma AddToBoth(a: multiset<Unit>, b: multiset<Unit>, c: multiset<Unit>, d: multiset<Unit>, l: multiset<Unit>)
    requires a + b == c + d
    ensures (a + l) + b == (c + l) + d
  {
    assert (a + l) + b == (a + b) + l;
  }

  lemma {:induction false} OwedSame(pcs: seq<PC>, qs: seq<PC>, jobs: seq<Option<Unit>>)
    requires |pcs| == |qs| == |jobs| && forall i :: 0 <= i < |pcs| ==> Owed(pcs[i], jobs[i]) == Owed(qs[i], jobs[i])
    ensures AllOwed(pcs, jobs) == AllOwed(qs, jobs)
    decreases |pcs|
  {
    if pcs != [] {
      OwedSame(pcs[..|pcs| - 1], qs[..|qs| - 1], jobs[..|jobs| - 1]);
    }
  }

  lemma {:induction false} NothingOwed(pcs: seq<PC>, jobs: seq<Option<Unit>>)
    requires |pcs| == |jobs| && forall i :: 0 <= i < |pcs| ==> Owed(pcs[i], jobs[i]) == multiset{}
    ensures AllOwed(pcs, jobs) == multiset{}
    decreases |pcs|
  {
    if pcs != [] {
      NothingOwed(pcs[..|pcs| - 1], jobs[..|jobs| - 1]);
    }
  }

  // The invariant, thread by thread

  /** Every thread is idle and there is nothing to do. */
  predicate Quiet(s: State) {
    Count(IsIdle, s.pcs) == |s.pcs| && s.stack == []
  }

  /** The thread is one that this program point belongs to, and it has a job exactly in user code. */
  predicate RoleOk(n: nat, t: nat, p: PC, job: Option<Unit>) {
    && (p.Outside? || p.Closure? || p.MainStore? || p.StopStore? || p.StopWake? || p.Stopped? ==> t == 0)
    && (p.Exited? || p.IdleWakeMain? ==> t != 0)
    && (Later(p) == Some(ToClosure) ==> t == 0)
    && (job.Some? <==> Later(p) == Some(ToUser))
  }

  /** The values a thread remembers fit the lock word. */
  predicate ValueOk(s: State, t: nat, p: PC) {
    match p
    case LockCas(_, v) => !Locked(v)
    case SlowWait(_, v) => Tag(v) == 3
    case UnlockLoad(nonempty, _) => nonempty == (s.stack != [])
    case UnlockSwap(v, _, _) => Idle(v) == Idle(s.word) && Tag(v) == if s.stack != [] then 2 else 0
    case IdleLoad => s.stack == []
    case IdleSwap(v) => s.stack == [] && v == 4 * Idle(s.word) + 4
    case IdleWakeLock(v) => v >= 4 && Tag(v) == 0 && (v == 4 * |s.pcs| && t == 0 ==> Quiet(s))
    case IdleWakeMain(v) => v == 4 * |s.pcs|
    case IdleSpin(v) => (t != 0 ==> v != 0) && (v == 4 * |s.pcs| && t == 0 ==> Quiet(s))
    case IdleWait(v) => if t == 0 then v != 4 * |s.pcs| else v != 0
    case IdleCas(v) => Tag(v) == 2 && v >= 4
    case MainStore(v) => v == 4 * |s.pcs| && Quiet(s)
    case Outside => Count(IsIdle, s.pcs) == |s.pcs| - 1 && s.stack == []
    case StopStore => Count(IsIdle, s.pcs) == |s.pcs| - 1 && s.stack == []
    case _ => true
  }

  predicate ThreadOk(s: State, t: nat)
    requires t < |s.pcs| == |s.jobs|
  {
    RoleOk(|s.pcs|, t, s.pcs[t], s.jobs[t]) && ValueOk(s, t, s.pcs[t])
  }

  /** The lock word counts the idle threads, has its lock bit set exactly while one thread holds the
      lock, and when unlocked has WORK set exactly if the stack is not empty. */
  predicate WordOk(s: State) {
    && Idle(s.word) == Count(IsIdle, s.pcs)
    && Count(Holds, s.pcs) == (if Locked(s.word) then 1 else 0)
    && (!Locked(s.word) ==> Tag(s.word) == if s.stack != [] then 2 else 0)
    && (Count(IsIdle, s.pcs) == |s.pcs| ==> s.stack == [])
    && (forall t :: 0 <= t < |s.pcs| ==> !s.pcs[t].Exited? && !s.pcs[t].StopWake? && !s.pcs[t].Stopped?)
  }

  /** After `stop`: the word is zero and only leaving is left. */
  predicate StoppedOk(s: State)
    requires |s.pcs| > 0
  {
    && s.word == 0 && s.stack == []
    && (s.pcs[0].StopWake? || s.pcs[0].Stopped?)
    && (forall t :: 1 <= t < |s.pcs| ==> IsIdle(s.pcs[t]))
    && (s.pcs[0].Stopped? ==> forall t :: 1 <= t < |s.pcs| ==> !s.pcs[t].IdleAsleep?)
  }

  /** Somebody will see to the threads that sleep on the lock. */
  predicate LockAttended(p: PC) {
    p.UnlockWakeLock? || p.IdleWakeLock? || p.SlowTry? || p.SlowWait? || p.SlowLoad?
  }

  /** If a thread sleeps on the lock, then the word is contended, or a wake is pending,
      or a woken contender is still running. */
  predicate LockSleepersOk(s: State) {
    forall t :: 0 <= t < |s.pcs| && s.pcs[t].SlowAsleep? ==>
      Tag(s.word) == 3 || exists u :: 0 <= u < |s.pcs| && LockAttended(s.pcs[u])
  }

  /** A worker that made the last thread idle is about to wake thread 0. */
  predicate WakesMain(p: PC, n: nat) {
    (p.IdleWakeMain? || p.IdleWakeLock?) && p.v == 4 * n
  }

  /** Thread 0 is never asleep on the all-idle word without a pending wake. */
  predicate MainSleepOk(s: State)
    requires |s.pcs| > 0
  {
    s.pcs[0].IdleAsleep? && s.word == 4 * |s.pcs| ==>
      exists u :: 1 <= u < |s.pcs| && WakesMain(s.pcs[u], |s.pcs|)
  }

  /** Every submitted unit is on the stack, owed by one thread, or done, as often as it was submitted. */
  predicate Accounted(s: State)
    requires |s.pcs| == |s.jobs|
  {
    s.submitted == StackUnits(s.stack) + AllOwed(s.pcs, s.jobs) + s.done
  }

  predicate Shape(s: State) {
    |s.pcs| == |s.jobs| >= 2
  }

  predicate Inv(s: State) {
    && Shape(s)
    && (forall t :: 0 <= t < |s.pcs| ==> ThreadOk(s, t))
    && (if s.stopped then StoppedOk(s) else WordOk(s))
    && LockSleepersOk(s)
    && MainSleepOk(s)
    && Accounted(s)
  }
}
