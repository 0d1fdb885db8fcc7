/** `LightweightSemaphore`: a counter updated with atomic operations in front of a kernel semaphore.
    `wait` is `waitMany` for one permit and `tryWait` is `tryWaitMany` for one, so the program counter
    of a waiting thread carries the number of permits it wants. */
module LightweightSemaphores {
  import opened Counting

  const INT32: int := 0x1_0000_0000

  /** static_cast<int> of the number of kernel releases. */
  function ToInt32(k: int): int {
    var w := k % INT32;
    if w < INT32 / 2 then w else w - INT32
  }

  function Min(a: int, b: int): int { if a < b then a else b }
  function Max(a: int, b: int): int { if a > b then a else b }

  /** What follows a `tryWaitMany` that is part of a larger call. */
  datatype After =
    | Report(got: nat)          // return, on top of `got` permits taken before
    | OrWait                    // if it took nothing, go on to the partial spinning

  datatype PC =
    | Idle
    | TryLoad(max: nat, after: After)                       // oldCount = m_count.load
    | TryCas(max: nat, seen: int, after: After)             // while (oldCount > 0) CAS(weak)
    | SpinLoad(max: nat, left: nat)                         // while (--spin >= 0) load
    | SpinCas(max: nat, left: nat, seen: int)               //   if (oldCount > 0) CAS
    | Sub(max: nat)                                         // m_count.fetch_sub(1)
    | Sleep(max: nat)                                       // m_sema.wait / timed_wait, or no wait at all
    | Recheck(max: nat)                                     // timed out: oldCount = m_count.load
    | Settle(max: nat, seen: int)                           // try_wait, or CAS(oldCount + 1)
    | SignalAdd(count: nat)                                 // m_count.fetch_add(count)
    | Post(todo: int)                                       // sem_post, `count` of them to go

  /** `count` is m_count and `tokens` the value of the kernel semaphore.  The last three are history:
      the initial count, the permits signalled, and the permits handed to callers. */
  datatype State = State(
    count: int, tokens: nat, pc: seq<PC>, maxSpins: nat, initial: nat, signalled: nat, acquired: nat)

  datatype Action =
    | StartTry(t: nat, max: nat)
    | StartWait(t: nat, max: nat)
    | StartSignal(t: nat, count: nat)
    | Run(t: nat, lucky: bool)   // `lucky`: a weak CAS does not fail spuriously; a sleeper gets a token

  predicate Enabled(s: State, a: Action) {
    match a
    case StartTry(t, _) => t < |s.pc| && s.pc[t] == Idle
    case StartWait(t, _) => t < |s.pc| && s.pc[t] == Idle
    case StartSignal(t, _) => t < |s.pc| && s.pc[t] == Idle
    case Run(t, lucky) => t < |s.pc| && s.pc[t] != Idle && (s.pc[t].Sleep? && lucky ==> s.tokens > 0)
  }

  function Next(s: State, a: Action): State
    requires Enabled(s, a)
  {
    match a
    case StartTry(t, max) => s.(pc := s.pc[t := TryLoad(max, Report(0))])
    case StartWait(t, max) => s.(pc := s.pc[t := TryLoad(max, OrWait)])
    case StartSignal(t, count) => s.(pc := s.pc[t := SignalAdd(count)])
    case Run(t, lucky) => Step(s, t, lucky)
  }

  function Step(s: State, t: nat, lucky: bool): State
    requires Enabled(s, Run(t, lucky))
  {
    match s.pc[t]
    case TryLoad(max, after) => s.(pc := s.pc[t := TryCas(max, s.count, after)])
    case TryCas(max, seen, after) => TryTake(s, t, max, seen, after, lucky)
    case SpinLoad(max, left) => s.(pc := s.pc[t := SpinCas(max, left, s.count)])
    case SpinCas(max, left, seen) => SpinTake(s, t, max, left, seen)
    case Sub(max) => Subtract(s, t, max)
    case Sleep(max) => Awake(s, t, max, lucky)
    case Recheck(max) => s.(pc := s.pc[t := Settle(max, s.count)])
    case Settle(max, seen) => SettleTimeout(s, t, max, seen)
    case SignalAdd(count) => AddSignal(s, t, count)
    case Post(count) => PostOne(s, t, count)
  }

  /** newCount = oldCount > max ? oldCount - max : 0, what a greedy CAS leaves behind. */
  function Rest(seen: int, max: nat): int { if seen > max then seen - max else 0 }

  function SpinFrom(max: nat, left: nat): PC { if left == 0 then Sub(max) else SpinLoad(max, left - 1) }

  function TryTake(s: State, t: nat, max: nat, seen: int, after: After, lucky: bool): State
    requires t < |s.pc|
  {
    if seen <= 0 then
      s.(pc := s.pc[t := if after.OrWait? && max > 0 then SpinFrom(max, s.maxSpins) else Idle])
    else if s.count == seen && lucky then
      s.(count := Rest(seen, max), acquired := s.acquired + (seen - Rest(seen, max)),
         pc := s.pc[t := if after.OrWait? && seen == Rest(seen, max) && max > 0
                         then SpinFrom(max, s.maxSpins) else Idle])
    else s.(pc := s.pc[t := TryCas(max, s.count, after)])
  }

  function SpinTake(s: State, t: nat, max: nat, left: nat, seen: int): State
    requires t < |s.pc|
  {
    if seen > 0 && s.count == seen
    then s.(count := Rest(seen, max), acquired := s.acquired + (seen - Rest(seen, max)), pc := s.pc[t := Idle])
    else s.(pc := s.pc[t := SpinFrom(max, left)])
  }

  /** One permit in hand: take more if more are wanted, without waiting. */
  function GotOne(max: nat): PC { if max > 1 then TryLoad(max - 1, Report(1)) else Idle }

  function Subtract(s: State, t: nat, max: nat): State
    requires t < |s.pc|
  {
    if s.count > 0
    then s.(count := s.count - 1, acquired := s.acquired + 1, pc := s.pc[t := GotOne(max)])
    else s.(count := s.count - 1, pc := s.pc[t := Sleep(max)])
  }

  function Awake(s: State, t: nat, max: nat, token: bool): State
    requires t < |s.pc| && (token ==> s.tokens > 0)
  {
    if token
    then s.(tokens := s.tokens - 1, acquired := s.acquired + 1, pc := s.pc[t := GotOne(max)])
    else s.(pc := s.pc[t := Recheck(max)])
  }

  function SettleTimeout(s: State, t: nat, max: nat, seen: int): State
    requires t < |s.pc|
  {
    if seen >= 0 && s.tokens > 0
    then s.(tokens := s.tokens - 1, acquired := s.acquired + 1, pc := s.pc[t := GotOne(max)])
    else if seen < 0 && s.count == seen
    then s.(count := seen + 1, pc := s.pc[t := Idle])
    else s.(pc := s.pc[t := Recheck(max)])
  }

  function AddSignal(s: State, t: nat, count: nat): State
    requires t < |s.pc|
  {
    var toRelease := if -s.count < count then -s.count else count;
    s.(count := s.count + count, signalled := s.signalled + count,
       pc := s.pc[t := if toRelease > 0 then Post(ToInt32(toRelease)) else Idle])
  }

  function PostOne(s: State, t: nat, count: int): State
    requires t < |s.pc|
  {
    if count > 0
    then s.(tokens := s.tokens + 1, pc := s.pc[t := if count > 1 then Post(count - 1) else Idle])
    else s.(pc := s.pc[t := Idle])
  }

  // ----- the invariant -----

  /** A slow-path waiter has taken 1 off the count and is not yet served. */
  function Slow(p: PC): int { if p.Sleep? || p.Recheck? || p.Settle? then 1 else 0 }

  function Releasing(p: PC): int { if p.Post? && p.todo > 0 then p.todo else 0 }

  ghost function SlowFn(): PC -> int { p => Slow(p) }
  ghost function ReleasingFn(): PC -> int { p => Releasing(p) }

  ghost function Waiters(s: State): int { Sum(s.pc, SlowFn()) }
  ghost function InFlight(s: State): int { Sum(s.pc, ReleasingFn()) }

  predicate Waiting(p: PC) { p.Sub? || p.Sleep? || p.Recheck? || p.Settle? }

  /** Only a call for at least one permit gets as far as spinning or waiting. */
  predicate WantsSome(p: PC) { p.SpinLoad? || p.SpinCas? || Waiting(p) ==> p.max > 0 }

  ghost predicate Inv(s: State) {
    && |s.pc| < INT32 / 2
    && (forall t :: 0 <= t < |s.pc| ==> WantsSome(s.pc[t]))
    && s.count == s.initial + s.signalled - s.acquired - Waiters(s)
    && Waiters(s) == s.tokens + InFlight(s) + Max(0, -s.count)
  }

  ghost predicate Init(s: State) {
    && |s.pc| < INT32 / 2
    && s.count == s.initial && s.tokens == s.signalled == s.acquired == 0
    && forall t :: 0 <= t < |s.pc| ==> s.pc[t] == Idle
  }

  lemma InitInv(s: State)
    requires Init(s)
    ensures Inv(s)
  {
    SumZero(s.pc, SlowFn());
    SumZero(s.pc, ReleasingFn());
  }

  lemma SumsStep(s: State, s': State, t: nat, p: PC)
    requires t < |s.pc| && s'.pc == s.pc[t := p]
    ensures Waiters(s') == Waiters(s) - Slow(s.pc[t]) + Slow(p)
    ensures InFlight(s') == InFlight(s) - Releasing(s.pc[t]) + Releasing(p)
    ensures 0 <= Waiters(s) <= |s.pc| && 0 <= InFlight(s)
  {
    SumUpdate(s.pc, SlowFn(), t, p);
    SumUpdate(s.pc, ReleasingFn(), t, p);
    SumNonNegative(s.pc, SlowFn());
    SumNonNegative(s.pc, ReleasingFn());
    SumAtMost(s.pc, SlowFn(), 1);
  }

  /** Never more kernel releases than waiters, hence than threads: the cast to int loses nothing. */
  lemma ReleaseCountFitsInt(s: State, count: nat)
    requires Inv(s)
    ensures var toRelease := Min(-s.count, count);
      toRelease > 0 ==> toRelease <= Waiters(s) && ToInt32(toRelease) == toRelease
  {
    SumAtMost(s.pc, SlowFn(), 1);
    SumNonNegative(s.pc, ReleasingFn());
  }

  lemma NextLocal(s: State, a: Action)
    requires Enabled(s, a) && WantsSome(s.pc[a.t])
    ensures WantsSome(Next(s, a).pc[a.t]) && Next(s, a).pc == s.pc[a.t := Next(s, a).pc[a.t]]
    ensures Next(s, a).initial == s.initial
  {
  }

  /** Both sides of the two balances of the invariant move by the same amount. */
  lemma NextBalance(s: State, a: Action)
    requires Enabled(s, a) && !(a.Run? && s.pc[a.t].SignalAdd?)
    ensures var s' := Next(s, a); var p := s.pc[a.t]; var p' := s'.pc[a.t];
      && s'.count - s.count == (s'.signalled - s.signalled) - (s'.acquired - s.acquired) - (Slow(p') - Slow(p))
      && Slow(p') - Slow(p) ==
         (s'.tokens - s.tokens) + (Releasing(p') - Releasing(p)) + (Max(0, -s'.count) - Max(0, -s.count))
  {
  }

  lemma SignalKeeps(s: State, t: nat, count: nat)
    requires Inv(s) && t < |s.pc| && s.pc[t] == SignalAdd(count)
    ensures Inv(AddSignal(s, t, count))
  {
    var s' := AddSignal(s, t, count);
    SumsStep(s, s', t, s'.pc[t]);
    ReleaseCountFitsInt(s, count);
  }

  lemma NextInv(s: State, a: Action)
    requires Inv(s) && Enabled(s, a)
    ensures Inv(Next(s, a))
  {
    if a.Run? && s.pc[a.t].SignalAdd? {
      SignalKeeps(s, a.t, s.pc[a.t].count);
    } else {
      var s' := Next(s, a);
      NextLocal(s, a);
      NextBalance(s, a);
      SumsStep(s, s', a.t, s'.pc[a.t]);
    }
  }

  // ----- what every run guarantees -----

  ghost predicate Moves(s: State, a: Action, s': State) { Enabled(s, a) && s' == Next(s, a) }

  ghost predicate Leads(s: State, s': State) { exists a :: Moves(s, a, s') }

  ghost predicate IsRun(run: seq<State>) {
    && run != [] && Init(run[0])
    && (forall i :: 0 <= i < |run| - 1 ==> Leads(run[i], run[i + 1]))
  }

  ghost predicate Reachable(s: State) { exists run :: IsRun(run) && run[|run| - 1] == s }

  lemma {:induction false} RunInv(run: seq<State>, i: nat)
    requires IsRun(run) && i < |run|
    ensures Inv(run[i])
  {
    if i == 0 {
      InitInv(run[0]);
    } else {
      RunInv(run, i - 1);
      assert Leads(run[i - 1], run[i - 1 + 1]);
      var a :| Moves(run[i - 1], a, run[i]);
      NextInv(run[i - 1], a);
    }
  }

  lemma ReachableInv(s: State)
    requires Reachable(s)
    ensures Inv(s)
  {
    var run :| IsRun(run) && run[|run| - 1] == s;
    RunInv(run, |run| - 1);
  }

  /** Every permit ever signalled is with a caller, in the counter, in the kernel semaphore or on its
      way there; and every waiter is matched by a kernel token, a release under way, or a negative count. */
  lemma PermitsAreConserved(s: State)
    requires Reachable(s)
    ensures s.initial + s.signalled == s.acquired + Max(0, s.count) + s.tokens + InFlight(s)
    ensures Waiters(s) == s.tokens + InFlight(s) + Max(0, -s.count)
    ensures InFlight(s) >= 0 && s.acquired <= s.initial + s.signalled
  {
    ReachableInv(s);
    SumNonNegative(s.pc, ReleasingFn());
  }

  /** No wake-up is lost: a thread is left asleep only when every permit has been handed out; as long
      as one has not, a token is there to be taken or a signaller is about to post one. */
  lemma NoWakeupIsLost(s: State, t: nat)
    requires Reachable(s) && t < |s.pc| && Slow(s.pc[t]) == 1
    ensures s.acquired < s.initial + s.signalled ==> s.tokens > 0 || exists u :: 0 <= u < |s.pc| && Releasing(s.pc[u]) > 0
  {
    ReachableInv(s);
    if s.acquired < s.initial + s.signalled && s.tokens == 0 {
      SumAtLeast(s.pc, SlowFn(), t);
      assert InFlight(s) > 0;
      var u := SumWitness(s.pc, ReleasingFn());
    }
  }

  /** Between operations the counter is the whole truth: it equals the permits not handed out. */
  lemma QuietCountIsExact(s: State)
    requires Reachable(s) && forall t :: 0 <= t < |s.pc| ==> s.pc[t] == Idle
    ensures s.count == s.initial + s.signalled - s.acquired && s.count >= 0 && s.tokens == 0
  {
    ReachableInv(s);
    SumZero(s.pc, SlowFn());
    SumZero(s.pc, ReleasingFn());
  }

  /** The permits a call may still take. */
  function Wanted(p: PC): nat {
    if p.TryLoad? || p.TryCas? || p.SpinLoad? || p.SpinCas? || Waiting(p) then p.max else 0
  }

  /** A call never takes more than it asked for: what a step takes comes off what is still wanted. */
  lemma StepTakesWhatIsWanted(s: State, t: nat, lucky: bool)
    requires Reachable(s) && Enabled(s, Run(t, lucky))
    ensures var s' := Step(s, t, lucky);
      0 <= s'.acquired - s.acquired <= Wanted(s.pc[t]) - Wanted(s'.pc[t])
  {
    assert WantsSome(s.pc[t]) by { ReachableInv(s); }
  }

  /** A waiting call that ends without a permit in this step has left the counter as if it had never
      come: it puts back the 1 it took, and only while no token was meant for it. */
  lemma TimeoutPutsItsPermitBack(s: State, t: nat, lucky: bool)
    requires Reachable(s) && Enabled(s, Run(t, lucky)) && Waiting(s.pc[t]) && s.pc[t].Settle?
    ensures var s' := Step(s, t, lucky);
      s'.pc[t] == Idle && s'.acquired == s.acquired ==> s.count < 0 && s'.count == s.count + 1 && s'.tokens == s.tokens
  {
    ReachableInv(s);
  }

  // ----- the semaphore as an object updated in place -----

  /** The counter, the kernel semaphore, and the threads inside the semaphore's methods.  Each method
      performs the next atomic operation of one thread inside the source function it is named after;
      `got` is the number of permits that operation hands to the caller. */
  class LightweightSemaphore {
    var m_count: int
    var m_sema: nat
    const m_maxSpins: nat
    var threads: seq<PC>
    ghost const initial: nat
    ghost var signalled: nat
    ghost var acquired: nat

    ghost function Snapshot(): State
      reads this
    {
      State(m_count, m_sema, threads, m_maxSpins, initial, signalled, acquired)
    }

    ghost predicate Valid()
      reads this
    {
      Inv(Snapshot())
    }

    constructor (initialCount: nat, maxSpins: nat, threadCount: nat)
      requires threadCount < INT32 / 2
      ensures Init(Snapshot()) && Valid() && |threads| == threadCount && initial == initialCount
    {
      m_count, m_sema, m_maxSpins := initialCount, 0, maxSpins;
      threads := seq(threadCount, _ => Idle);
      initial, signalled, acquired := initialCount, 0, 0;
      new;
      InitInv(Snapshot());
    }

    method CallTryWaitMany(t: nat, max: nat)
      requires Valid() && Enabled(Snapshot(), StartTry(t, max))
      modifies this
      ensures Snapshot() == Next(old(Snapshot()), StartTry(t, max)) && Valid()
    {
      NextInv(Snapshot(), StartTry(t, max));
      threads := threads[t := TryLoad(max, Report(0))];
    }

    method CallWaitMany(t: nat, max: nat)
      requires Valid() && Enabled(Snapshot(), StartWait(t, max))
      modifies this
      ensures Snapshot() == Next(old(Snapshot()), StartWait(t, max)) && Valid()
    {
      NextInv(Snapshot(), StartWait(t, max));
      threads := threads[t := TryLoad(max, OrWait)];
    }

    method CallSignal(t: nat, count: nat)
      requires Valid() && Enabled(Snapshot(), StartSignal(t, count))
      modifies this
      ensures Snapshot() == Next(old(Snapshot()), StartSignal(t, count)) && Valid()
    {
      NextInv(Snapshot(), StartSignal(t, count));
      threads := threads[t := SignalAdd(count)];
    }

    method RunTryWaitMany(t: nat, lucky: bool) returns (got: nat)
      requires Valid() && t < |threads| && (threads[t].TryLoad? || threads[t].TryCas?)
      modifies this
      ensures Snapshot() == Step(old(Snapshot()), t, lucky) && Valid()
      ensures got == acquired - old(acquired)
    {
      NextInv(Snapshot(), Run(t, lucky));
      got := 0;
      var max := threads[t].max;
      var after := threads[t].after;
      if threads[t].TryLoad? {
        threads := threads[t := TryCas(max, m_count, after)];
      } else if threads[t].seen <= 0 {
        threads := threads[t := if after.OrWait? && max > 0 then SpinFrom(max, m_maxSpins) else Idle];
      } else if m_count == threads[t].seen && lucky {
        got := m_count - Rest(m_count, max);
        m_count := Rest(m_count, max);
        acquired := acquired + got;
        threads := threads[t := if after.OrWait? && got == 0 && max > 0 then SpinFrom(max, m_maxSpins) else Idle];
      } else {
        threads := threads[t := TryCas(max, m_count, after)];
      }
    }

    /** The partial spinning, and the decrement that follows it. */
    method RunSpinning(t: nat) returns (got: nat)
      requires Valid() && t < |threads| && (threads[t].SpinLoad? || threads[t].SpinCas? || threads[t].Sub?)
      modifies this
      ensures Snapshot() == Step(old(Snapshot()), t, false) && Valid()
      ensures got == acquired - old(acquired)
    {
      NextInv(Snapshot(), Run(t, false));
      got := 0;
      match threads[t] {
        case SpinLoad(max, left) => threads := threads[t := SpinCas(max, left, m_count)];
        case SpinCas(max, left, seen) =>
          if seen > 0 && m_count == seen {
            got := m_count - Rest(m_count, max);
            m_count := Rest(m_count, max);
            threads := threads[t := Idle];
          } else {
            threads := threads[t := SpinFrom(max, left)];
          }
        case Sub(max) =>
          got := if m_count > 0 then 1 else 0;
          threads := threads[t := if m_count > 0 then GotOne(max) else Sleep(max)];
          m_count := m_count - 1;
      }
      acquired := acquired + got;
    }

    /** The kernel wait, and the settling of a wait that timed out. */
    method RunWaiting(t: nat, token: bool) returns (got: nat)
      requires Valid() && Enabled(Snapshot(), Run(t, token))
      requires threads[t].Sleep? || threads[t].Recheck? || threads[t].Settle?
      modifies this
      ensures Snapshot() == Step(old(Snapshot()), t, token) && Valid()
      ensures got == acquired - old(acquired)
    {
      NextInv(Snapshot(), Run(t, token));
      got := 0;
      match threads[t] {
        case Sleep(max) =>
          got := if token then 1 else 0;
          threads := threads[t := if token then GotOne(max) else Recheck(max)];
        case Recheck(max) => threads := threads[t := Settle(max, m_count)];
        case Settle(max, seen) =>
          if seen >= 0 && m_sema > 0 {
            got := 1;
            threads := threads[t := GotOne(max)];
          } else if seen < 0 && m_count == seen {
            m_count := seen + 1;
            threads := threads[t := Idle];
          } else {
            threads := threads[t := Recheck(max)];
          }
      }
      m_sema := m_sema - got;
      acquired := acquired + got;
    }

    method RunSignal(t: nat)
      requires Valid() && t < |threads| && (threads[t].SignalAdd? || threads[t].Post?)
      modifies this
      ensures Snapshot() == Step(old(Snapshot()), t, false) && Valid()
    {
      NextInv(Snapshot(), Run(t, false));
      match threads[t] {
        case SignalAdd(count) =>
          var oldCount := m_count;
          m_count := m_count + count;
          signalled := signalled + count;
          var toRelease := if -oldCount < count then -oldCount else count;
          threads := threads[t := if toRelease > 0 then Post(ToInt32(toRelease)) else Idle];
        case Post(todo) =>
          if todo > 0 {
            m_sema := m_sema + 1;
            threads := threads[t := if todo > 1 then Post(todo - 1) else Idle];
          } else {
            threads := threads[t := Idle];
          }
      }
    }
  }
}
