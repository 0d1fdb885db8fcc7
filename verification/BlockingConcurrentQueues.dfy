/** `BlockingConcurrentQueue`: an inner queue and a semaphore.  Enqueuers first insert, then signal;
    dequeuers first take permits, then spin on the inner queue until they are served. */
module BlockingConcurrentQueues {
  import opened Counting
  import Sem = LightweightSemaphores

  /** `items` is the number of elements in the inner queue.  Per thread, `unsignalled` is what it has
      enqueued and not yet added to the semaphore, `owed` the permits it holds and was not served for. */
  datatype State = State(sem: Sem.State, items: nat, unsignalled: seq<nat>, owed: seq<nat>)

  datatype Action =
    | Enqueue(t: nat, n: nat)             // inner.enqueue (or enqueue_bulk of n) succeeded
    | CallSignal(t: nat)                  // sema->signal for what was enqueued
    | CallTry(t: nat, max: nat)           // sema->tryWait / tryWaitMany
    | CallWait(t: nat, max: nat)          // sema->wait / waitMany
    | InSemaphore(t: nat, lucky: bool)    // an atomic operation inside the semaphore
    | TryInner(t: nat, found: bool)       // one round of `while (!inner.try_dequeue(item))`

  predicate Sized(s: State) { |s.unsignalled| == |s.owed| == |s.sem.pc| }

  /** The thread is outside every call. */
  predicate Outside(s: State, t: nat) {
    Sized(s) && t < |s.owed| && s.sem.pc[t] == Sem.Idle && s.unsignalled[t] == 0 && s.owed[t] == 0
  }

  predicate Enabled(s: State, a: Action) {
    Sized(s) &&
    match a
    case Enqueue(t, n) => Outside(s, t)
    case CallSignal(t) => t < |s.owed| && s.sem.pc[t] == Sem.Idle && s.unsignalled[t] > 0
    case CallTry(t, _) => Outside(s, t)
    case CallWait(t, _) => Outside(s, t)
    case InSemaphore(t, lucky) => Sem.Enabled(s.sem, Sem.Run(t, lucky))
    case TryInner(t, found) =>
      t < |s.owed| && s.sem.pc[t] == Sem.Idle && s.owed[t] > 0 && (found ==> s.items > 0)
  }

  function Next(s: State, a: Action): State
    requires Enabled(s, a)
  {
    match a
    case Enqueue(t, n) => s.(items := s.items + n, unsignalled := s.unsignalled[t := n])
    case CallSignal(t) => s.(sem := Sem.Next(s.sem, Sem.StartSignal(t, s.unsignalled[t])))
    case CallTry(t, max) => s.(sem := Sem.Next(s.sem, Sem.StartTry(t, max)))
    case CallWait(t, max) => s.(sem := Sem.Next(s.sem, Sem.StartWait(t, max)))
    case InSemaphore(t, lucky) =>
      var sem' := Sem.Step(s.sem, t, lucky);
      var got := sem'.acquired - s.sem.acquired;
      s.(sem := sem',
         owed := if got >= 0 then s.owed[t := s.owed[t] + got] else s.owed,
         unsignalled := if s.sem.pc[t].SignalAdd? then s.unsignalled[t := 0] else s.unsignalled)
    case TryInner(t, found) =>
      if found then s.(items := s.items - 1, owed := s.owed[t := s.owed[t] - 1]) else s
  }

  ghost function NatFn(): nat -> int { n => n }

  /** Permits signalled and not handed out: in the counter, in the kernel, or on their way there. */
  function Available(s: State): int { s.sem.initial + s.sem.signalled - s.sem.acquired }

  predicate SignalOk(p: Sem.PC, unsignalled: nat) {
    && (p.SignalAdd? ==> p.count == unsignalled)
    && (unsignalled > 0 ==> p.Idle? || p.SignalAdd?)
  }

  ghost predicate Inv(s: State) {
    && Sized(s) && Sem.Inv(s.sem)
    && (forall t :: 0 <= t < |s.owed| ==> SignalOk(s.sem.pc[t], s.unsignalled[t]))
    && s.items == Sum(s.unsignalled, NatFn()) + Available(s) + Sum(s.owed, NatFn())
  }

  ghost predicate Init(s: State) {
    && Sized(s) && Sem.Init(s.sem) && s.sem.initial == s.items == 0
    && forall t :: 0 <= t < |s.owed| ==> s.unsignalled[t] == s.owed[t] == 0
  }

  lemma InitInv(s: State)
    requires Init(s)
    ensures Inv(s)
  {
    Sem.InitInv(s.sem);
    SumZero(s.unsignalled, NatFn());
    SumZero(s.owed, NatFn());
  }

  /** What a step inside the semaphore means for this thread's account. */
  lemma SemaphoreStep(s: Sem.State, t: nat, lucky: bool)
    requires Sem.Inv(s) && Sem.Enabled(s, Sem.Run(t, lucky))
    ensures var s' := Sem.Step(s, t, lucky);
      && s'.acquired >= s.acquired && s'.initial == s.initial
      && s'.pc == s.pc[t := s'.pc[t]] && !s'.pc[t].SignalAdd?
      && s'.signalled - s.signalled == (if s.pc[t].SignalAdd? then s.pc[t].count else 0)
      && (s.pc[t].SignalAdd? ==> s'.acquired == s.acquired)
  {
  }

  lemma InSemaphoreKeeps(s: State, t: nat, lucky: bool)
    requires Inv(s) && Enabled(s, InSemaphore(t, lucky))
    ensures Inv(Next(s, InSemaphore(t, lucky)))
  {
    Sem.NextInv(s.sem, Sem.Run(t, lucky));
    SemaphoreStep(s.sem, t, lucky);
    var s' := Next(s, InSemaphore(t, lucky));
    SumUpdate(s.owed, NatFn(), t, s'.owed[t]);
    SumUpdate(s.unsignalled, NatFn(), t, 0);
    assert SignalOk(s.sem.pc[t], s.unsignalled[t]);
  }

  lemma NextInv(s: State, a: Action)
    requires Inv(s) && Enabled(s, a)
    ensures Inv(Next(s, a))
  {
    match a {
      case Enqueue(t, n) => SumUpdate(s.unsignalled, NatFn(), t, n);
      case CallSignal(t) => Sem.NextInv(s.sem, Sem.StartSignal(t, s.unsignalled[t]));
      case CallTry(t, max) => Sem.NextInv(s.sem, Sem.StartTry(t, max));
      case CallWait(t, max) => Sem.NextInv(s.sem, Sem.StartWait(t, max));
      case InSemaphore(t, lucky) => InSemaphoreKeeps(s, t, lucky);
      case TryInner(t, found) => SumUpdate(s.owed, NatFn(), t, s.owed[t] - 1);
    }
  }

  // ----- what every run guarantees -----

  ghost predicate Moves(s: State, a: Action, s': State) { Enabled(s, a) && s' == Next(s, a) }

  ghost predicate Leads(s: State, s': State) { exists a :: Moves(s, a, s') }

  ghost predicate IsRun(run: seq<State>) {
    && run != [] && Init(run[0])
    && (forall i :: 0 <= i < |run| - 1 ==> Leads(run[i], run[i + 1]))
  }

  ghost predicate Reachable(s: State) { exists run :: IsRun(run) && run[|run| - 1] == s }

  lemma {:induction false} RunInv(run: seq<State>, i: nat)
    requires IsRun(run) && i < |run|
    ensures Inv(run[i])
  {
    if i == 0 {
      InitInv(run[0]);
    } else {
      RunInv(run, i - 1);
      assert Leads(run[i - 1], run[i - 1 + 1]);
      var a :| Moves(run[i - 1], a, run[i]);
      NextInv(run[i - 1], a);
    }
  }

  lemma ReachableInv(s: State)
    requires Reachable(s)
    ensures Inv(s)
  {
    var run :| IsRun(run) && run[|run| - 1] == s;
    RunInv(run, |run| - 1);
  }

  /** Permits never outrun elements: the elements are exactly those whose enqueuer has not signalled
      yet, those a permit is available for, and those some permit holder is still to be served. */
  lemma ElementsMatchPermits(s: State)
    requires Reachable(s)
    ensures s.items == Sum(s.unsignalled, NatFn()) + Available(s) + Sum(s.owed, NatFn())
    ensures Available(s) == Sem.Max(0, s.sem.count) + s.sem.tokens + Sem.InFlight(s.sem) && Available(s) >= 0
  {
    ReachableInv(s);
    SumNonNegative(s.sem.pc, Sem.ReleasingFn());
  }

  /** A thread that spins after `wait` has its elements waiting for it, however the others interleave:
      even if every other permit holder is served first, enough are left. */
  lemma PermitHolderIsServed(s: State, t: nat)
    requires Reachable(s) && Sized(s) && t < |s.owed|
    ensures s.owed[t] <= s.items
    ensures s.owed[t] + Sum(s.owed[t := 0], NatFn()) <= s.items
  {
    ElementsMatchPermits(s);
    SumNonNegative(s.unsignalled, NatFn());
    SumUpdate(s.owed, NatFn(), t, 0);
    SumNonNegative(s.owed[t := 0], NatFn());
  }

  /** With no call under way the semaphore counts the elements. */
  lemma QuietSemaphoreCountsElements(s: State)
    requires Reachable(s) && Sized(s) && forall t :: 0 <= t < |s.owed| ==> Outside(s, t)
    ensures s.sem.count == s.items
  {
    forall t | 0 <= t < |s.owed| ensures s.unsignalled[t] == s.owed[t] == 0 && s.sem.pc[t] == Sem.Idle {
      assert Outside(s, t);
    }
    assert Sum(s.unsignalled, NatFn()) == 0 by { SumZero(s.unsignalled, NatFn()); }
    assert Sum(s.owed, NatFn()) == 0 by { SumZero(s.owed, NatFn()); }
    assert Sem.Waiters(s.sem) == 0 by {
      SumZero(s.sem.pc, Sem.SlowFn());
    }
    assert Inv(s) by { ReachableInv(s); }
  }

  // ----- the queue as an object updated in place -----

  /** The inner queue (by its number of elements) and the semaphore object beside it. */
  class BlockingConcurrentQueue {
    var inner: nat
    const sema: Sem.LightweightSemaphore
    ghost var unsignalled: seq<nat>
    var owed: seq<nat>

    ghost function Snapshot(): State
      reads this, sema
    {
      State(sema.Snapshot(), inner, unsignalled, owed)
    }

    ghost predicate Valid()
      reads this, sema
    {
      sema.Valid() && Inv(Snapshot())
    }

    constructor (maxSpins: nat, threadCount: nat)
      requires threadCount < Sem.INT32 / 2
      ensures Init(Snapshot()) && Valid() && fresh(sema)
    {
      inner := 0;
      sema := new Sem.LightweightSemaphore(0, maxSpins, threadCount);
      owed := seq(threadCount, _ => 0);
      unsignalled := seq(threadCount, _ => 0);
      new;
      InitInv(Snapshot());
    }

    /** enqueue and enqueue_bulk up to the signal: the elements go in first. */
    method Insert(t: nat, n: nat)
      requires Valid() && Enabled(Snapshot(), Enqueue(t, n))
      modifies this
      ensures Snapshot() == Next(old(Snapshot()), Enqueue(t, n)) && Valid()
    {
      NextInv(Snapshot(), Enqueue(t, n));
      inner := inner + n;
      unsignalled := unsignalled[t := n];
    }

    /** sema->signal(n) for the n elements just inserted. */
    method Signal(t: nat, n: nat)
      requires Valid() && Enabled(Snapshot(), CallSignal(t)) && n == unsignalled[t]
      modifies sema
      ensures Snapshot() == Next(old(Snapshot()), CallSignal(t)) && Valid()
    {
      NextInv(Snapshot(), CallSignal(t));
      sema.CallSignal(t, n);
    }

    /** sema->wait() or sema->waitMany(max). */
    method Wait(t: nat, max: nat)
      requires Valid() && Enabled(Snapshot(), CallWait(t, max))
      modifies sema
      ensures Snapshot() == Next(old(Snapshot()), CallWait(t, max)) && Valid()
    {
      NextInv(Snapshot(), CallWait(t, max));
      sema.CallWaitMany(t, max);
    }

    /** sema->tryWait() or sema->tryWaitMany(max). */
    method TryWait(t: nat, max: nat)
      requires Valid() && Enabled(Snapshot(), CallTry(t, max))
      modifies sema
      ensures Snapshot() == Next(old(Snapshot()), CallTry(t, max)) && Valid()
    {
      NextInv(Snapshot(), CallTry(t, max));
      sema.CallTryWaitMany(t, max);
    }

    /** Any operation of the semaphore's tryWait or wait on behalf of t; what it hands out is owed to t. */
    method RunWait(t: nat, lucky: bool)
      requires Valid() && Enabled(Snapshot(), InSemaphore(t, lucky))
      requires !sema.threads[t].SignalAdd? && !sema.threads[t].Post?
      modifies this, sema
      ensures Snapshot() == Next(old(Snapshot()), InSemaphore(t, lucky)) && Valid()
    {
      hide Inv, Sem.Inv;
      NextInv(Snapshot(), InSemaphore(t, lucky));
      var got;
      if sema.threads[t].TryLoad? || sema.threads[t].TryCas? {
        got := sema.RunTryWaitMany(t, lucky);
      } else if sema.threads[t].SpinLoad? || sema.threads[t].SpinCas? || sema.threads[t].Sub? {
        got := sema.RunSpinning(t);
      } else {
        got := sema.RunWaiting(t, lucky);
      }
      owed := owed[t := owed[t] + got];
    }

    /** An operation of the semaphore's signal on behalf of t: once it is added, nothing is left to signal. */
    method RunSignal(t: nat)
      requires Valid() && Enabled(Snapshot(), InSemaphore(t, false)) && (sema.threads[t].SignalAdd? || sema.threads[t].Post?)
      modifies this, sema
      ensures Snapshot() == Next(old(Snapshot()), InSemaphore(t, false)) && Valid()
    {
      hide Inv, Sem.Inv;
      NextInv(Snapshot(), InSemaphore(t, false));
      if sema.threads[t].SignalAdd? { unsignalled := unsignalled[t := 0]; }
      sema.RunSignal(t);
    }

    /** One round of `while (!inner.try_dequeue(item))`: it may find nothing, but never because
        there is nothing to find. */
    method TryDequeueInner(t: nat, missed: bool) returns (found: bool)
      requires Valid() && t < |owed| && sema.threads[t] == Sem.Idle && owed[t] > 0
      modifies this
      ensures found <==> !missed
      ensures old(Enabled(Snapshot(), TryInner(t, !missed)))
      ensures Snapshot() == Next(old(Snapshot()), TryInner(t, !missed)) && Valid()
    {
      SumNonNegative(unsignalled, NatFn());
      SumAtLeast(owed, NatFn(), t);
      SumNonNegative(sema.threads, Sem.ReleasingFn());
      NextInv(Snapshot(), TryInner(t, !missed));
      found := !missed;
      if found {
        inner := inner - 1;
        owed := owed[t := owed[t] - 1];
      }
    }
  }
}
