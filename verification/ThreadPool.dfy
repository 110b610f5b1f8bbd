/**
 The thread pool protocol (`src/threading.rs`, `src/threading/sync_impl.futex.rs`) as a state
 machine: n threads, one atomic step each time, thread 0 being the one that owns the pool.
 The lock word is the number the code keeps: 4 times the idle count, plus two state bits.
 How often a thread spins before it sleeps, and which sleeper a wake picks, is left open.
 */
module ThreadPool {
  import opened Wrappers

  /** The smallest piece of work: one closure to run, or one item of a `for_each`. */
  type Unit = nat

  /** A task on the shared stack: `SimpleTask` or `MultiTask`. */
  datatype Work = Simple(id: Unit) | Multi(items: seq<Unit>)

  function Units(w: Work): multiset<Unit> {
    match w
    case Simple(id) => multiset{id}
    case Multi(items) => multiset(items)
  }

  function StackUnits(s: seq<Work>): multiset<Unit> {
    if s == [] then multiset{} else StackUnits(s[..|s| - 1]) + Units(s[|s| - 1])
  }

  /** Where a thread goes on after an unlock. */
  datatype After = ToUser | ToClosure

  /** What a thread takes the lock for: pushing a task, or the run loop. */
  datatype Want = Push(task: Work, after: After) | RunAll

  datatype PC =
    // thread 0 only: between scopes, in the closure of a scope, at the end of `main`, in `stop`
    | Outside | Closure | MainStore(v: nat) | StopStore | StopWake | Stopped
    // running a unit of work
    | User
    // lock
    | LockLoad(k: Want) | LockCas(k: Want, v: nat)
    | SlowTry(k: Want, v: nat) | SlowWait(k: Want, v: nat) | SlowAsleep(k: Want) | SlowLoad(k: Want)
    // the critical section
    | Holding(k: Want)
    // unlock
    | UnlockLoad(nonempty: bool, after: After) | UnlockSwap(v: nat, wake: bool, after: After)
    | UnlockWakeLock(wake: bool, after: After) | UnlockWakeWork(after: After)
    // unlock_idle, then wait_work or wait_main
    | IdleLoad | IdleSwap(v: nat) | IdleWakeLock(v: nat) | IdleWakeMain(v: nat)
    | IdleSpin(v: nat) | IdleWait(v: nat) | IdleAsleep | IdleReload | IdleCas(v: nat)
    | Exited

  datatype State = State(
    word: nat,
    pcs: seq<PC>,
    jobs: seq<Option<Unit>>,
    stack: seq<Work>,
    stopped: bool,
    submitted: multiset<Unit>,
    done: multiset<Unit>)
  {
    function At(t: nat, p: PC): State
      requires t < |pcs|
    {
      this.(pcs := pcs[t := p])
    }
  }

  datatype Act = Submit(task: Work) | Finish | EnterScope | Stop

  /** The choices a step leaves open. */
  datatype Choice = Choice(act: Act, spin: bool, casFails: bool, who: nat)

  // The lock word

  function Tag(v: nat): nat { v % 4 }
  function Idle(v: nat): nat { v / 4 }
  function Base(v: nat): nat { 4 * Idle(v) }
  predicate Locked(v: nat) { Tag(v) == 1 || Tag(v) == 3 }
  predicate Contended(v: nat) { Tag(v) == 2 || Tag(v) == 3 }

  // Where the code goes

  function Return(a: After): PC {
    match a
    case ToUser => User
    case ToClosure => Closure
  }

  /** The fast loop of `lock` after reading `v`. */
  function FastSeen(k: Want, v: nat, spin: bool): PC {
    if !Locked(v) then LockCas(k, v)
    else if Contended(v) || !spin then SlowTry(k, v)
    else LockLoad(k)
  }

  /** The waiting loops after reading `v`. */
  function IdleSeen(t: nat, v: nat): PC {
    if Tag(v) == 2 then IdleCas(v)
    else if t != 0 && v == 0 then Exited
    else IdleSpin(v)
  }

  /** The waiting loops after `unlock_idle` stored `v`: the last worker wakes thread 0. */
  function IdleEntered(t: nat, n: nat, v: nat): PC {
    if t != 0 && Idle(v) == n then IdleWakeMain(v) else IdleSpin(v)
  }

  /** A futex wake of at most one sleeper in the given state. */
  function Woken(s: State, u: nat, asleep: PC -> bool): State
    requires u < |s.pcs|
  {
    if asleep(s.pcs[u]) then s.At(u, Roused(s.pcs[u])) else s
  }

  const LockSleeper: PC -> bool := (p: PC) => p.SlowAsleep?
  const IdleSleeper: PC -> bool := (p: PC) => p.IdleAsleep?

  /** The chosen thread is a sleeper, if there is any. */
  predicate Picks(s: State, u: nat, asleep: PC -> bool) {
    u < |s.pcs| && (asleep(s.pcs[u]) || forall i :: 0 <= i < |s.pcs| ==> !asleep(s.pcs[i]))
  }

  function WakeAll(pcs: seq<PC>): (r: seq<PC>)
    ensures |r| == |pcs|
    ensures forall i :: 0 <= i < |pcs| ==> r[i] == Roused(pcs[i])
  {
    seq(|pcs|, i requires 0 <= i < |pcs| => Roused(pcs[i]))
  }

  /** What a sleeper does once woken. */
  function Roused(p: PC): PC {
    if p.SlowAsleep? then SlowLoad(p.k) else if p.IdleAsleep? then IdleReload else p
  }

  /** Whether thread `t` can take a step with this choice. A sleeper cannot. */
  predicate Enabled(s: State, t: nat, c: Choice) {
    && t < |s.pcs| == |s.jobs|
    && match s.pcs[t]
       case Outside => c.act == EnterScope || c.act == Stop
       case Closure => c.act.Submit? || c.act == Finish
       case User => (c.act.Submit? || c.act == Finish) && s.jobs[t].Some?
       case UnlockWakeLock(_, _) => Picks(s, c.who, LockSleeper)
       case IdleWakeLock(_) => Picks(s, c.who, LockSleeper)
       case UnlockWakeWork(_) => Picks(s, c.who, IdleSleeper)
       case SlowAsleep(_) => false
       case IdleAsleep => false
       case Exited => false
       case Stopped => false
       case _ => true
  }

  /** One atomic step of thread `t`. */
  function Step(s: State, t: nat, c: Choice): State
    requires Enabled(s, t, c)
  {
    match s.pcs[t]
    case Outside => s.At(t, if c.act == Stop then StopStore else Closure)
    case Closure => StepUser(s, t, c, ToClosure)
    case User => StepUser(s, t, c, ToUser)
    case LockLoad(k) => s.At(t, FastSeen(k, s.word, c.spin))
    case LockCas(k, v) =>
      if s.word == v && !c.casFails then s.(word := Base(v) + 1).At(t, Holding(k))
      else s.At(t, FastSeen(k, s.word, c.spin))
    case SlowTry(k, v) =>
      if Tag(v) == 3 then s.At(t, SlowWait(k, v))
      else if s.word == v && !c.casFails then
        s.(word := Base(v) + 3).At(t, if Locked(v) then SlowWait(k, Base(v) + 3) else Holding(k))
      else s.At(t, SlowTry(k, s.word))
    case SlowWait(k, v) => s.At(t, if s.word == v then SlowAsleep(k) else SlowLoad(k))
    case SlowLoad(k) => s.At(t, SlowTry(k, s.word))
    case Holding(Push(w, a)) => s.(stack := s.stack + [w]).At(t, UnlockLoad(true, a))
    case Holding(RunAll) => StepRunAll(s, t)
    case UnlockLoad(nonempty, a) =>
      var v := Base(s.word) + if nonempty then 2 else 0;
      s.At(t, UnlockSwap(v, nonempty && v >= 4, a))
    case UnlockSwap(v, wake, a) =>
      s.(word := v).At(t,
        if Contended(s.word) then UnlockWakeLock(wake, a)
        else if wake then UnlockWakeWork(a) else Return(a))
    case UnlockWakeLock(wake, a) =>
      Woken(s, c.who, LockSleeper).At(t,
        if !LockSleeper(s.pcs[c.who]) && wake then UnlockWakeWork(a) else Return(a))
    case UnlockWakeWork(a) => Woken(s, c.who, IdleSleeper).At(t, Return(a))
    case IdleLoad => s.At(t, IdleSwap(Base(s.word) + 4))
    case IdleSwap(v) =>
      s.(word := v).At(t, if Contended(s.word) then IdleWakeLock(v) else IdleEntered(t, |s.pcs|, v))
    case IdleWakeLock(v) => Woken(s, c.who, LockSleeper).At(t, IdleEntered(t, |s.pcs|, v))
    case IdleWakeMain(v) => Woken(s, 0, IdleSleeper).At(t, IdleSpin(v))
    case IdleSpin(v) =>
      s.At(t, if t == 0 && v == 4 * |s.pcs| then MainStore(v) else if c.spin then IdleReload else IdleWait(v))
    case IdleWait(v) => s.At(t, if s.word == v then IdleAsleep else IdleReload)
    case IdleReload => s.At(t, IdleSeen(t, s.word))
    case IdleCas(v) =>
      if s.word == v && !c.casFails && v >= 5 then s.(word := v - 4 - 2 + 1).At(t, Holding(RunAll))
      else s.At(t, IdleSeen(t, s.word))
    case MainStore(v) => s.(word := if v >= 4 then v - 4 else 0).At(t, Outside)
    case StopStore => s.(word := 0, stopped := true).At(t, StopWake)
    case StopWake => s.(pcs := WakeAll(s.pcs)).At(t, Stopped)
  }

  /** User code either submits a task or ends; then the thread goes for the lock. */
  function StepUser(s: State, t: nat, c: Choice, a: After): State
    requires t < |s.pcs| == |s.jobs| && (a == ToUser ==> s.jobs[t].Some?)
  {
    if c.act.Submit? then
      s.(submitted := s.submitted + Units(c.act.task)).At(t, LockLoad(Push(c.act.task, a)))
    else if a == ToUser then
      s.(done := s.done + multiset{s.jobs[t].value}, jobs := s.jobs[t := None]).At(t, LockLoad(RunAll))
    else s.At(t, LockLoad(RunAll))
  }

  /** `run_all` under the lock: nothing left, or the top task yields a unit, or is exhausted. */
  function StepRunAll(s: State, t: nat): State
    requires t < |s.pcs| == |s.jobs|
  {
    if s.stack == [] then s.At(t, IdleLoad)
    else
      var rest := s.stack[..|s.stack| - 1];
      match s.stack[|s.stack| - 1]
      case Simple(id) => s.(stack := rest, jobs := s.jobs[t := Some(id)]).At(t, UnlockLoad(rest != [], ToUser))
      case Multi(items) =>
        if items == [] then s.(stack := rest)
        else s.(stack := rest + [Multi(items[1..])], jobs := s.jobs[t := Some(items[0])]).At(t, UnlockLoad(true, ToUser))
  }

  /** A sleeper may also wake for no reason. */
  predicate Spurious(s: State, s': State) {
    exists t :: 0 <= t < |s.pcs| && s' == s.At(t, Roused(s.pcs[t]))
  }

  ghost predicate Next(s: State, s': State) {
    Spurious(s, s') || exists t, c :: Enabled(s, t, c) && s' == Step(s, t, c)
  }

  /** Every thread but thread 0 starts out idle, in `start_work`. */
  predicate Init(s: State) {
    && |s.pcs| == |s.jobs| >= 2
    && s.word == 4 * (|s.pcs| - 1) && s.stack == [] && !s.stopped
    && s.pcs[0] == Outside && (forall t :: 1 <= t < |s.pcs| ==> s.pcs[t] == IdleReload)
    && (forall t :: 0 <= t < |s.pcs| ==> s.jobs[t] == None)
    && s.submitted == multiset{} && s.done == multiset{}
  }

  /** A run of the pool. */
  ghost predicate IsRun(r: seq<State>) {
    r != [] && Init(r[0]) && forall i :: 0 <= i < |r| - 1 ==> Next(r[i], r[i + 1])
  }
}
