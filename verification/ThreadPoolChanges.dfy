/** The steps that change the lock word, the stack or the accounts keep the invariant. */
module ThreadPoolChanges {
  import opened Wrappers
  import opened ThreadPool
  import opened ThreadPoolInvariant
  import opened ThreadPoolSteps

  /** What the lock word tells a thread of a running pool. */
  predicate WordFacts(s: State, t: nat)
    requires Shape(s) && t < |s.pcs|
  {
    && Idle(s.word) == Count(IsIdle, s.pcs) && (!Locked(s.word) ==> Tag(s.word) == if s.stack != [] then 2 else 0)
    && (Holds(s.pcs[t]) ==> Locked(s.word))
    && (IsIdle(s.pcs[t]) ==> Idle(s.word) >= 1)
    && Idle(s.word) <= |s.pcs| && (!IsIdle(s.pcs[t]) ==> Idle(s.word) < |s.pcs|)
    && (Count(IsIdle, s.pcs) == |s.pcs| ==> !Locked(s.word) && s.word == 4 * |s.pcs|)
  }

  /** The part of the invariant that a step of thread `t` looks at. */
  predicate Before(s: State, t: nat) {
    Shape(s) && t < |s.pcs| && ThreadOk(s, t) && WordFacts(s, t)
  }

  lemma WordAt(s: State, t: nat)
    requires Inv(s) && !s.stopped && t < |s.pcs|
    ensures Before(s, t)
  {
    CountBounds(IsIdle, s.pcs);
    CountBounds(Holds, s.pcs);
  }

  /** A lock word is its idle count and its tag. */
  lemma Parts(w: nat)
    ensures w == 4 * Idle(w) + Tag(w) && Tag(w) < 4 && Base(w) == 4 * Idle(w)
    ensures Locked(w) <==> Tag(w) == 1 || Tag(w) == 3
    ensures Contended(w) <==> Tag(w) == 2 || Tag(w) == 3
  {
  }

  lemma StackPush(stack: seq<Work>, w: Work)
    ensures StackUnits(stack + [w]) == StackUnits(stack) + Units(w)
  {
    assert (stack + [w])[..|stack|] == stack;
  }

  /** Handing the units `u` over from one place to another balances. */
  lemma HandOver(sub: multiset<Unit>, st: multiset<Unit>, d: multiset<Unit>, u: multiset<Unit>, o: multiset<Unit>)
    ensures sub + u + o + st + d == sub + (u + o) + st + d
    ensures sub + (u + o) + st + d == sub + o + (st + u) + d
  {
  }

  /** A thread that is about to push owes the units of the task, and one with a job owes that. */
  lemma OwedMore(p: PC, q: PC, w: Work, j: Option<Unit>, u: Unit)
    requires Pushing(p) && p.k.task == w && !Pushing(q)
    ensures Owed(p, j) == Units(w) + Owed(q, j)
    ensures Owed(q, Some(u)) == multiset{u} + Owed(q, None)
  {
  }

  lemma OwedAlike(p: PC, q: PC, j: Option<Unit>)
    requires !Pushing(p) && !Pushing(q)
    ensures Owed(p, j) == Owed(q, j)
  {
  }

  lemma SameJob(s: State, s': State, t: nat, p: PC)
    requires Shape(s) && t < |s.pcs| && s'.pcs == s.pcs[t := p] && s'.jobs == s.jobs && s'.stopped == s.stopped
    ensures OnlyThread(s, s', t, p, s.jobs[t])
  {
    assert s.jobs[t := s.jobs[t]] == s.jobs;
  }

  lemma SubmitBalanced(s: State, t: nat, w: Work, p: PC, q: PC, j: Option<Unit>)
    requires Shape(s) && t < |s.pcs| && s.pcs[t] == q && s.jobs[t] == j && Pushing(p) && p.k.task == w && !Pushing(q)
    ensures Balanced(s, s.(submitted := s.submitted + Units(w)).At(t, p), t, p, j)
  {
    OwedMore(p, q, w, j, 0);
    hide Owed, Units, StackUnits;
    HandOver(s.submitted, StackUnits(s.stack), s.done, Units(w), Owed(q, j));
  }

  lemma PushBalanced(s: State, t: nat, w: Work, p: PC, q: PC, j: Option<Unit>)
    requires Shape(s) && t < |s.pcs| && s.pcs[t] == p && s.jobs[t] == j && Pushing(p) && p.k.task == w && !Pushing(q)
    ensures Balanced(s, s.(stack := s.stack + [w]).At(t, q), t, q, j)
  {
    StackPush(s.stack, w);
    OwedMore(p, q, w, j, 0);
    hide Owed, Units, StackUnits;
    HandOver(s.submitted, StackUnits(s.stack), s.done, Units(w), Owed(q, j));
  }

  lemma TakeBalanced(s: State, t: nat, stack: seq<Work>, u: Unit, p: PC)
    requires Shape(s) && t < |s.pcs| && !Pushing(s.pcs[t]) && s.jobs[t] == None && !Pushing(p)
    requires StackUnits(s.stack) == StackUnits(stack) + multiset{u}
    ensures Balanced(s, s.(stack := stack, jobs := s.jobs[t := Some(u)]).At(t, p), t, p, Some(u))
  {
    OwedMore(LockLoad(Push(Simple(u), ToUser)), p, Simple(u), None, u);
    OwedAlike(p, s.pcs[t], None);
    hide Owed, StackUnits;
    HandOver(s.submitted, StackUnits(stack), s.done, multiset{u}, Owed(p, None));
  }

  /** Moving on with what the thread owes. */
  lemma KeptBalanced(s: State, s': State, t: nat, p: PC)
    requires Shape(s) && t < |s.pcs| && Pushing(s.pcs[t]) == Pushing(p) && (Pushing(p) ==> p.k == s.pcs[t].k)
    requires s'.submitted == s.submitted && s'.stack == s.stack && s'.done == s.done
    ensures Balanced(s, s', t, p, s.jobs[t])
  {
  }

  lemma AlikeBalanced(s: State, s': State, t: nat, p: PC)
    requires Shape(s) && t < |s.pcs| && !Pushing(s.pcs[t]) && !Pushing(p)
    requires s'.submitted == s.submitted && s'.stack == s.stack && s'.done == s.done
    ensures Balanced(s, s', t, p, s.jobs[t])
  {
  }

  /** Submitting a task, from user code or from the closure of a scope. */
  lemma SubmitKeeps(s: State, t: nat, w: Work, a: After)
    requires Inv(s) && !s.stopped && t < |s.pcs| && s.pcs[t] == Return(a)
    ensures Inv(s.(submitted := s.submitted + Units(w)).At(t, LockLoad(Push(w, a))))
  {
    var p := LockLoad(Push(w, a));
    var s' := s.(submitted := s.submitted + Units(w)).At(t, p);
    WordAt(s, t);
    SameJob(s, s', t, p);
    SubmitFits(s, s', t, p, a);
    SubmitBalanced(s, t, w, p, s.pcs[t], s.jobs[t]);
    hide *;
    Changes(s, s', t, p, s.jobs[t]);
  }

  lemma SubmitFits(s: State, s': State, t: nat, p: PC, a: After)
    requires Before(s, t) && s'.word == s.word && s'.stack == s.stack
    requires s.pcs[t] == Return(a) && p.LockLoad? && p.k.Push? && p.k.after == a
    ensures Fits(s, s', t, p, s.jobs[t])
  {
    Parts(s.word);
    Parts(s'.word);
    hide Idle, Tag, Base, Locked, Contended, Count;
  }

  /** The end of a unit of work. */
  lemma FinishKeeps(s: State, t: nat)
    requires Inv(s) && !s.stopped && t < |s.pcs| == |s.jobs| && s.pcs[t].User? && s.jobs[t].Some?
    ensures Inv(s.(done := s.done + multiset{s.jobs[t].value}, jobs := s.jobs[t := None]).At(t, LockLoad(RunAll)))
  {
    var s' := s.(done := s.done + multiset{s.jobs[t].value}, jobs := s.jobs[t := None]).At(t, LockLoad(RunAll));
    WordAt(s, t);
    RunFits(s, s', t, None);
    assert Balanced(s, s', t, LockLoad(RunAll), None) by {
      hide StackUnits;
    }
    hide *;
    Changes(s, s', t, LockLoad(RunAll), None);
  }

  /** The end of the closure of a scope. */
  lemma ClosureKeeps(s: State, t: nat)
    requires Inv(s) && !s.stopped && t < |s.pcs| && s.pcs[t].Closure?
    ensures Inv(s.At(t, LockLoad(RunAll)))
  {
    var s' := s.At(t, LockLoad(RunAll));
    WordAt(s, t);
    SameJob(s, s', t, LockLoad(RunAll));
    RunFits(s, s', t, s.jobs[t]);
    AlikeBalanced(s, s', t, LockLoad(RunAll));
    hide *;
    Changes(s, s', t, LockLoad(RunAll), s.jobs[t]);
  }

  lemma RunFits(s: State, s': State, t: nat, j: Option<Unit>)
    requires Before(s, t) && s'.word == s.word && s'.stack == s.stack
    requires (s.pcs[t].Closure? || s.pcs[t].User?) && j == None
    ensures Fits(s, s', t, LockLoad(RunAll), j)
  {
    Parts(s.word);
    Parts(s'.word);
    hide Idle, Tag, Base, Locked, Contended, Count;
  }

  /** Taking the lock, in the fast loop or the slow one. */
  lemma AcquireKeeps(s: State, t: nat, k: Want, w: nat)
    requires Inv(s) && !s.stopped && t < |s.pcs| && TakesLock(s, t, k, w)
    ensures Inv(s.(word := w).At(t, Holding(k)))
  {
    var s' := s.(word := w).At(t, Holding(k));
    WordAt(s, t);
    SameJob(s, s', t, Holding(k));
    AcquireFits(s, s', t, k, w);
    KeptBalanced(s, s', t, Holding(k));
    hide *;
    Changes(s, s', t, Holding(k), s.jobs[t]);
  }

  predicate TakesLock(s: State, t: nat, k: Want, w: nat)
    requires t < |s.pcs|
  {
    && ((s.pcs[t].LockCas? && Tag(w) == 1) || (s.pcs[t].SlowTry? && Tag(w) == 3))
    && s.pcs[t].k == k && !Locked(s.word) && Base(w) == Base(s.word)
  }

  lemma AcquireFits(s: State, s': State, t: nat, k: Want, w: nat)
    requires Before(s, t) && s'.word == w && s'.stack == s.stack && TakesLock(s, t, k, w)
    ensures Fits(s, s', t, Holding(k), s.jobs[t])
  {
    Parts(s.word);
    Parts(s'.word);
    hide Idle, Tag, Base, Locked, Contended, Count;
  }

  /** Setting the contention flag of a word that somebody else has locked. */
  lemma ContendKeeps(s: State, t: nat, k: Want, w: nat)
    requires Inv(s) && !s.stopped && t < |s.pcs| && s.pcs[t].SlowTry? && s.pcs[t].k == k
    requires Locked(s.word) && w == Base(s.word) + 3
    ensures Inv(s.(word := w).At(t, SlowWait(k, w)))
  {
    var s' := s.(word := w).At(t, SlowWait(k, w));
    WordAt(s, t);
    SameJob(s, s', t, SlowWait(k, w));
    ContendFits(s, s', t, k, w);
    KeptBalanced(s, s', t, SlowWait(k, w));
    hide *;
    Changes(s, s', t, SlowWait(k, w), s.jobs[t]);
  }

  lemma ContendFits(s: State, s': State, t: nat, k: Want, w: nat)
    requires Before(s, t) && s'.word == w && s'.stack == s.stack && s.pcs[t].SlowTry? && s.pcs[t].k == k
    requires Locked(s.word) && w == Base(s.word) + 3
    ensures Fits(s, s', t, SlowWait(k, w), s.jobs[t])
  {
    Parts(s.word);
    Parts(s'.word);
    hide Idle, Tag, Base, Locked, Contended, Count;
  }

  /** A waiting thread takes the lock of a word that shows work; the subtraction cannot wrap. */
  lemma IdleCasKeeps(s: State, t: nat)
    requires Inv(s) && !s.stopped && t < |s.pcs| && s.pcs[t].IdleCas? && s.pcs[t].v == s.word
    ensures s.word >= 6 && Inv(s.(word := s.word - 5).At(t, Holding(RunAll)))
  {
    WordAt(s, t);
    IdleCasWord(s, t);
    var s' := s.(word := s.word - 5).At(t, Holding(RunAll));
    SameJob(s, s', t, Holding(RunAll));
    IdleCasFits(s, s', t);
    AlikeBalanced(s, s', t, Holding(RunAll));
    hide *;
    Changes(s, s', t, Holding(RunAll), s.jobs[t]);
  }

  lemma IdleCasWord(s: State, t: nat)
    requires Before(s, t) && s.pcs[t].IdleCas? && s.pcs[t].v == s.word
    ensures s.word >= 6 && Tag(s.word) == 2
  {
    hide Count;
  }

  lemma IdleCasFits(s: State, s': State, t: nat)
    requires Before(s, t) && s.pcs[t].IdleCas? && s.pcs[t].v == s.word && s'.stack == s.stack
    requires s.word >= 6 && s'.word == s.word - 5
    ensures Fits(s, s', t, Holding(RunAll), s.jobs[t])
  {
    Parts(s.word);
    Parts(s'.word);
    hide Idle, Tag, Base, Locked, Contended, Count;
  }

  lemma PushKeeps(s: State, t: nat, w: Work, a: After)
    requires Inv(s) && !s.stopped && t < |s.pcs| && s.pcs[t] == Holding(Push(w, a))
    ensures Inv(s.(stack := s.stack + [w]).At(t, UnlockLoad(true, a)))
  {
    var p := UnlockLoad(true, a);
    var s' := s.(stack := s.stack + [w]).At(t, p);
    WordAt(s, t);
    SameJob(s, s', t, p);
    StackFits(s, s', t, p, s.jobs[t]);
    PushBalanced(s, t, w, s.pcs[t], p, s.jobs[t]);
    hide *;
    Changes(s, s', t, p, s.jobs[t]);
  }

  /** Changing the stack under the lock. */
  lemma StackFits(s: State, s': State, t: nat, p: PC, j: Option<Unit>)
    requires Before(s, t) && s.pcs[t].Holding? && s'.word == s.word
    requires || (p.UnlockLoad? && p.nonempty == (s'.stack != []) && RoleOk(|s.pcs|, t, p, j))
             || (p == s.pcs[t] && j == s.jobs[t])
             || (p == IdleLoad && s'.stack == [] && j == None)
    ensures Fits(s, s', t, p, j)
  {
    Parts(s.word);
    Parts(s'.word);
    hide Idle, Tag, Base, Locked, Contended, Count;
  }

  /** Taking the first unit off a `MultiTask`. */
  lemma MultiNext(rest: seq<Work>, items: seq<Unit>)
    requires items != []
    ensures StackUnits(rest + [Multi(items)]) == StackUnits(rest + [Multi(items[1..])]) + multiset{items[0]}
  {
    StackPush(rest, Multi(items));
    StackPush(rest, Multi(items[1..]));
    assert items == [items[0]] + items[1..];
  }

  /** Taking a unit of work off the stack. */
  lemma TakeKeeps(s: State, t: nat, stack: seq<Work>, u: Unit)
    requires Inv(s) && !s.stopped && t < |s.pcs| == |s.jobs| && s.pcs[t] == Holding(RunAll)
    requires StackUnits(s.stack) == StackUnits(stack) + multiset{u}
    ensures Inv(s.(stack := stack, jobs := s.jobs[t := Some(u)]).At(t, UnlockLoad(stack != [], ToUser)))
  {
    var p := UnlockLoad(stack != [], ToUser);
    var s' := s.(stack := stack, jobs := s.jobs[t := Some(u)]).At(t, p);
    WordAt(s, t);
    StackFits(s, s', t, p, Some(u));
    TakeBalanced(s, t, stack, u, p);
    hide *;
    Changes(s, s', t, p, Some(u));
  }

  /** Dropping an exhausted `MultiTask`. */
  lemma DiscardKeeps(s: State, t: nat, rest: seq<Work>)
    requires Inv(s) && !s.stopped && t < |s.pcs| && s.pcs[t] == Holding(RunAll)
    requires s.stack == rest + [Multi([])]
    ensures Inv(s.(stack := rest))
  {
    var s' := s.(stack := rest);
    WordAt(s, t);
    SameJob(s, s', t, s.pcs[t]);
    StackFits(s, s', t, s.pcs[t], s.jobs[t]);
    StackPush(rest, Multi([]));
    assert Balanced(s, s', t, s.pcs[t], s.jobs[t]) by {
      hide StackUnits, Owed;
    }
    hide *;
    Changes(s, s', t, s.pcs[t], s.jobs[t]);
  }

  /** The stack is empty: `run_all` ends. */
  lemma EmptyKeeps(s: State, t: nat)
    requires Inv(s) && !s.stopped && t < |s.pcs| && s.pcs[t] == Holding(RunAll) && s.stack == []
    ensures Inv(s.At(t, IdleLoad))
  {
    var s' := s.At(t, IdleLoad);
    WordAt(s, t);
    SameJob(s, s', t, IdleLoad);
    StackFits(s, s', t, IdleLoad, s.jobs[t]);
    AlikeBalanced(s, s', t, IdleLoad);
    hide *;
    Changes(s, s', t, IdleLoad, s.jobs[t]);
  }

  lemma RunAllKeeps(s: State, t: nat)
    requires Inv(s) && !s.stopped && t < |s.pcs| == |s.jobs| && s.pcs[t] == Holding(RunAll)
    ensures Inv(StepRunAll(s, t))
  {
    hide Inv;
    if s.stack == [] {
      EmptyKeeps(s, t);
    } else {
      var rest := s.stack[..|s.stack| - 1];
      var top := s.stack[|s.stack| - 1];
      assert s.stack == rest + [top];
      StackPush(rest, top);
      match top
      case Simple(id) => TakeKeeps(s, t, rest, id);
      case Multi(items) =>
        if items == [] {
          DiscardKeeps(s, t, rest);
        } else {
          MultiNext(rest, items);
          TakeKeeps(s, t, rest + [Multi(items[1..])], items[0]);
        }
    }
  }

  /** What follows the swap in `unlock`: whoever has set the contention flag is woken next. */
  function Unlocked(q: PC, word: nat): PC
    requires q.UnlockSwap?
  {
    if Contended(word) then UnlockWakeLock(q.wake, q.after)
    else if q.wake then UnlockWakeWork(q.after) else Return(q.after)
  }

  lemma UnlockKeeps(s: State, t: nat)
    requires Inv(s) && !s.stopped && t < |s.pcs| && s.pcs[t].UnlockSwap?
    ensures Inv(s.(word := s.pcs[t].v).At(t, Unlocked(s.pcs[t], s.word)))
  {
    var p := Unlocked(s.pcs[t], s.word);
    var s' := s.(word := s.pcs[t].v).At(t, p);
    WordAt(s, t);
    SameJob(s, s', t, p);
    UnlockFits(s, s', t, p);
    AlikeBalanced(s, s', t, p);
    hide *;
    Changes(s, s', t, p, s.jobs[t]);
  }

  lemma UnlockFits(s: State, s': State, t: nat, p: PC)
    requires Before(s, t) && s.pcs[t].UnlockSwap? && s'.word == s.pcs[t].v && s'.stack == s.stack
    requires p == Unlocked(s.pcs[t], s.word)
    ensures !Pushing(p) && Fits(s, s', t, p, s.jobs[t])
  {
    Parts(s.word);
    Parts(s'.word);
    hide Idle, Tag, Base, Locked, Contended, Count;
  }

  /** `unlock_idle` swaps the new word in, with one more idle thread. */
  lemma UnlockIdleKeeps(s: State, t: nat, v: nat, p: PC)
    requires Inv(s) && !s.stopped && t < |s.pcs| && s.pcs[t] == IdleSwap(v)
    requires p == if Contended(s.word) then IdleWakeLock(v) else IdleEntered(t, |s.pcs|, v)
    ensures Inv(s.(word := v).At(t, p))
  {
    var s' := s.(word := v).At(t, p);
    WordAt(s, t);
    SameJob(s, s', t, p);
    UnlockIdleFits(s, s', t, v, p);
    AlikeBalanced(s, s', t, p);
    hide *;
    Changes(s, s', t, p, s.jobs[t]);
  }

  lemma UnlockIdleFits(s: State, s': State, t: nat, v: nat, p: PC)
    requires Before(s, t) && s.pcs[t] == IdleSwap(v) && s'.word == v && s'.stack == s.stack && |s'.pcs| == |s.pcs|
    requires p == if Contended(s.word) then IdleWakeLock(v) else IdleEntered(t, |s.pcs|, v)
    ensures !Pushing(p) && Fits(s, s', t, p, s.jobs[t])
  {
    Parts(s.word);
    Parts(s'.word);
    hide Idle, Tag, Base, Locked, Contended, Count;
  }

  /** Thread 0 leaves the pool's last wait: everybody else stays idle. */
  lemma MainStoreKeeps(s: State, t: nat, v: nat)
    requires Inv(s) && !s.stopped && t < |s.pcs| && s.pcs[t] == MainStore(v)
    ensures v >= 4 && Inv(s.(word := v - 4).At(t, Outside))
  {
    WordAt(s, t);
    var s' := s.(word := v - 4).At(t, Outside);
    SameJob(s, s', t, Outside);
    MainStoreFits(s, s', t, v);
    AlikeBalanced(s, s', t, Outside);
    hide *;
    Changes(s, s', t, Outside, s.jobs[t]);
  }

  lemma MainStoreFits(s: State, s': State, t: nat, v: nat)
    requires Before(s, t) && s.pcs[t] == MainStore(v) && s'.stack == s.stack && |s'.pcs| == |s.pcs|
    requires v >= 4 && s'.word == v - 4
    ensures Fits(s, s', t, Outside, s.jobs[t])
  {
    Parts(s.word);
    Parts(s'.word);
    hide Idle, Tag, Base, Locked, Contended, Count;
  }

  /** Between scopes every worker is idle, nothing is queued and the word says so: the assertions in `stop`. */
  lemma Resting(s: State)
    requires Inv(s) && !s.stopped && (s.pcs[0].Outside? || s.pcs[0].StopStore?)
    ensures s.word == 4 * (|s.pcs| - 1) && s.stack == []
    ensures forall u :: 1 <= u < |s.pcs| ==> IsIdle(s.pcs[u])
  {
    WordAt(s, 0);
    forall u | 1 <= u < |s.pcs| ensures IsIdle(s.pcs[u]) {
      if !IsIdle(s.pcs[u]) {
        CountMissing(IsIdle, s.pcs, 0, u);
      }
    }
    CountBounds(Holds, s.pcs);
  }

  /** `stop` stores zero: from here on every worker may only leave. */
  lemma StopStoreKeeps(s: State)
    requires Inv(s) && !s.stopped && s.pcs[0].StopStore?
    ensures Inv(s.(word := 0, stopped := true).At(0, StopWake))
  {
    Resting(s);
    var s' := s.(word := 0, stopped := true).At(0, StopWake);
    SameJob(s, s.At(0, StopWake), 0, StopWake);
    AlikeBalanced(s, s.At(0, StopWake), 0, StopWake);
    AccountsKept(s, s.At(0, StopWake), 0, StopWake, s.jobs[0]);
    StopThreads(s, s');
    hide AllOwed, Count, ThreadOk, StackUnits;
    Fold(s');
  }

  lemma StopThreads(s: State, s': State)
    requires Inv(s) && !s.stopped && s.pcs[0].StopStore?
    requires forall u :: 1 <= u < |s.pcs| ==> IsIdle(s.pcs[u])
    requires s' == s.(word := 0, stopped := true).At(0, StopWake)
    ensures AllOk(s')
  {
    hide Count;
    forall u | 0 <= u < |s.pcs| ensures ThreadOk(s', u) {
      assert ThreadOk(s, u);
    }
  }
}
