/** What the calls on the semaphore come to: tryWait fails only if it saw no permit, wait comes back without one
    only if its time was over, and no call takes more than it asked for. */
module SemaphoreCalls {
  import opened LightweightSemaphores

  // ----- what the steps of one thread do -----

  /** The states that the actions go through. */
  ghost predicate IsTrace(states: seq<State>, acts: seq<Action>) {
    && |states| == |acts| + 1 && Reachable(states[0])
    && forall i :: 0 <= i < |acts| ==> Moves(states[i], acts[i], states[i + 1])
  }

  predicate AtRest(s: State, t: nat) { t < |s.pc| && s.pc[t] == Idle }

  /** From the call to its return. */
  ghost predicate IsCall(states: seq<State>, acts: seq<Action>, t: nat, call: Action) {
    && IsTrace(states, acts) && acts != [] && acts[0] == call && call.t == t && !call.Run?
    && (forall i :: 0 < i < |acts| ==> !AtRest(states[i], t))
    && AtRest(states[|acts|], t)
  }

  predicate Own(a: Action, t: nat) { a.Run? && a.t == t }

  /** The permits that thread t has taken with its steps among the first n, and those it has added. */
  function Taken(states: seq<State>, acts: seq<Action>, t: nat, n: nat): int
    requires n <= |acts| < |states|
  {
    if n == 0 then 0
    else Taken(states, acts, t, n - 1) + if Own(acts[n - 1], t) then states[n].acquired - states[n - 1].acquired else 0
  }

  function Added(states: seq<State>, acts: seq<Action>, t: nat, n: nat): int
    requires n <= |acts| < |states|
  {
    if n == 0 then 0
    else Added(states, acts, t, n - 1) + if Own(acts[n - 1], t) then states[n].signalled - states[n - 1].signalled else 0
  }

  /** In one of the first n states after the call the count was c. */
  ghost predicate Saw(states: seq<State>, n: nat, c: int) { exists k :: 0 < k < n && k < |states| && states[k].count == c }

  /** Its sleep has ended without a token. */
  ghost predicate TimedOut(states: seq<State>, acts: seq<Action>, t: nat, n: nat) {
    exists k :: 0 < k < n && n <= |acts| < |states| && acts[k] == Run(t, false) && t < |states[k].pc| && states[k].pc[t].Sleep?
  }

  lemma Later(states: seq<State>, acts: seq<Action>, t: nat, n: nat)
    requires 0 < n < |acts| < |states|
    ensures TimedOut(states, acts, t, n) ==> TimedOut(states, acts, t, n + 1)
    ensures acts[n] == Run(t, false) && t < |states[n].pc| && states[n].pc[t].Sleep? ==> TimedOut(states, acts, t, n + 1)
    ensures forall c: int :: Saw(states, n, c) ==> Saw(states, n + 1, c)
    ensures Saw(states, n + 1, states[n].count)
  {
    if TimedOut(states, acts, t, n) {
      var k :| 0 < k < n && acts[k] == Run(t, false) && t < |states[k].pc| && states[k].pc[t].Sleep?;
      assert 0 < k < n + 1;
    }
  }

  // ----- tryWaitMany -----

  /** Until it returns, a call that tries has taken nothing; it works with a count it saw. */
  ghost predicate Trying(states: seq<State>, n: nat, pc: PC, max: nat, taken: int) {
    && taken == 0 && (pc.TryLoad? || pc.TryCas?) && pc.max == max && pc.after == Report(0)
    && (pc.TryCas? ==> Saw(states, n, pc.seen))
  }

  lemma TryStep(s: State, t: nat, lucky: bool)
    requires Enabled(s, Run(t, lucky)) && (s.pc[t].TryLoad? || s.pc[t].TryCas?) && s.pc[t].after == Report(0)
    ensures var s' := Step(s, t, lucky); var p, p', got := s.pc[t], s'.pc[t], s'.acquired - s.acquired;
      && |s'.pc| == |s.pc|
      && (p' != Idle ==> got == 0 && p'.TryCas? && p'.max == p.max && p'.after == p.after && p'.seen == s.count)
      && (p' == Idle ==> p.TryCas? && if p.seen <= 0 then got == 0 else s.count == p.seen && got == Min(p.max, s.count))
  {
  }

  lemma OtherThread(s: State, a: Action, t: nat)
    requires Enabled(s, a) && t < |s.pc| && s.pc[t] != Idle && !Own(a, t)
    ensures var s' := Next(s, a); t < |s'.pc| && s'.pc[t] == s.pc[t]
  {
  }

  lemma {:induction false} TryGoesOn(states: seq<State>, acts: seq<Action>, t: nat, max: nat, n: nat)
    requires IsTrace(states, acts) && acts != [] && acts[0] == StartTry(t, max) && 0 < n <= |acts|
    requires forall k :: 0 < k <= n ==> !AtRest(states[k], t)
    ensures t < |states[n].pc| && Trying(states, n, states[n].pc[t], max, Taken(states, acts, t, n))
  {
    hide Inv, Reachable, Step, Saw;
    var s, a := states[n - 1], acts[n - 1];
    assert Moves(s, a, states[n - 1 + 1]);
    if n == 1 {
      assert Taken(states, acts, t, 0) == 0;
    } else {
      TryGoesOn(states, acts, t, max, n - 1);
      Later(states, acts, t, n - 1);
      if Own(a, t) { TryStep(s, t, a.lucky); } else { OtherThread(s, a, t); }
    }
  }

  /** However the steps of other threads fall between, a try for some permits comes back with none only if
      it saw a count of zero or less, and otherwise with as many as it asked for or were there. */
  lemma TryFailsOnlyWithoutPermits(states: seq<State>, acts: seq<Action>, t: nat, max: nat)
    requires IsCall(states, acts, t, StartTry(t, max))
    ensures var got, last := Taken(states, acts, t, |acts|), |acts| - 1;
      && last > 0 && 0 <= got <= max
      && (got == 0 ==> max == 0 || exists c :: c <= 0 && Saw(states, |acts|, c))
      && (got > 0 ==> got == Min(max, states[last].count))
  {
    hide Inv, Reachable, Step, Saw;
    var n := |acts| - 1;
    assert Moves(states[n], acts[n], states[n + 1]);
    if n > 0 {
      TryGoesOn(states, acts, t, max, n);
      Later(states, acts, t, n);
      if Own(acts[n], t) { TryStep(states[n], t, acts[n].lucky); } else { OtherThread(states[n], acts[n], t); }
    }
  }

  // ----- waitMany -----

  /** Where a waiting call is, and what it has taken so far. */
  predicate Waits(pc: PC, max: nat, taken: int, timedOut: bool) {
    if taken == 0 then
      && !pc.Idle? && !pc.SignalAdd? && !pc.Post? && pc.max == max
      && (pc.TryLoad? || pc.TryCas? ==> pc.after == OrWait)
      && (!pc.TryLoad? && !pc.TryCas? ==> max > 0)
      && (pc.Recheck? || pc.Settle? ==> timedOut)
    else
      taken == 1 && max > 1 && (pc.TryLoad? || pc.TryCas?) && pc.max == max - 1 && pc.after == Report(1)
  }

  lemma WaitStep(s: State, t: nat, lucky: bool, max: nat, taken: int, timedOut: bool)
    requires Enabled(s, Run(t, lucky)) && Waits(s.pc[t], max, taken, timedOut)
    ensures var s' := Step(s, t, lucky); var p', got := s'.pc[t], taken + s'.acquired - s.acquired;
      && |s'.pc| == |s.pc|
      && (p' != Idle ==> Waits(p', max, got, timedOut || (s.pc[t].Sleep? && !lucky)))
      && (p' == Idle ==> 0 <= got <= max && (got == 0 ==> max == 0 || timedOut))
  {
  }

  lemma {:induction false} WaitGoesOn(states: seq<State>, acts: seq<Action>, t: nat, max: nat, n: nat)
    requires IsTrace(states, acts) && acts != [] && acts[0] == StartWait(t, max) && 0 < n <= |acts|
    requires forall k :: 0 < k <= n ==> !AtRest(states[k], t)
    ensures t < |states[n].pc| && Waits(states[n].pc[t], max, Taken(states, acts, t, n), TimedOut(states, acts, t, n))
  {
    hide Inv, Reachable, Step, Saw, TimedOut;
    var s, a := states[n - 1], acts[n - 1];
    assert Moves(s, a, states[n - 1 + 1]);
    if n == 1 {
      assert Taken(states, acts, t, 0) == 0;
    } else {
      WaitGoesOn(states, acts, t, max, n - 1);
      Later(states, acts, t, n - 1);
      if Own(a, t) {
        WaitStep(s, t, a.lucky, max, Taken(states, acts, t, n - 1), TimedOut(states, acts, t, n - 1));
        TimesOutNow(s, a, t);
      } else {
        OtherThread(s, a, t);
      }
    }
  }

  lemma TimesOutNow(s: State, a: Action, t: nat)
    requires Own(a, t)
    ensures !a.lucky ==> a == Run(t, false)
  {
  }

  /** A wait for some permits comes back with one at least, and no more than it asked for, unless its sleep
      has ended without a token. */
  lemma WaitComesBackWithPermits(states: seq<State>, acts: seq<Action>, t: nat, max: nat)
    requires IsCall(states, acts, t, StartWait(t, max))
    ensures var got := Taken(states, acts, t, |acts|);
      0 <= got <= max && (got == 0 ==> max == 0 || TimedOut(states, acts, t, |acts|))
  {
    hide Inv, Reachable, Step, Saw, TimedOut;
    var n := |acts| - 1;
    assert Moves(states[n], acts[n], states[n + 1]);
    if n > 0 {
      WaitGoesOn(states, acts, t, max, n);
      Later(states, acts, t, n);
      if Own(acts[n], t) {
        WaitStep(states[n], t, acts[n].lucky, max, Taken(states, acts, t, n), TimedOut(states, acts, t, n));
      } else {
        OtherThread(states[n], acts[n], t);
      }
    }
  }

  // ----- signal -----

  lemma {:induction false} SignalGoesOn(states: seq<State>, acts: seq<Action>, t: nat, count: nat, n: nat)
    requires IsTrace(states, acts) && acts != [] && acts[0] == StartSignal(t, count) && 0 < n <= |acts|
    requires forall k :: 0 < k < n ==> !AtRest(states[k], t)
    ensures t < |states[n].pc| && Taken(states, acts, t, n) == 0
    ensures if states[n].pc[t] == SignalAdd(count) then Added(states, acts, t, n) == 0
            else Added(states, acts, t, n) == count && n > 1 && (states[n].pc[t].Post? || states[n].pc[t] == Idle)
  {
    hide Inv, Reachable;
    var s, a := states[n - 1], acts[n - 1];
    assert Moves(s, a, states[n - 1 + 1]);
    if n == 1 {
      assert Taken(states, acts, t, 0) == 0 && Added(states, acts, t, 0) == 0;
    } else {
      SignalGoesOn(states, acts, t, count, n - 1);
      if Own(a, t) { SignalStep(s, t, a.lucky); } else { OtherThread(s, a, t); }
    }
  }

  lemma SignalStep(s: State, t: nat, lucky: bool)
    requires Enabled(s, Run(t, lucky)) && (s.pc[t].SignalAdd? || s.pc[t].Post?)
    ensures var s' := Step(s, t, lucky);
      && |s'.pc| == |s.pc| && (s'.pc[t].Post? || s'.pc[t] == Idle) && s'.acquired == s.acquired
      && s'.signalled == s.signalled + if s.pc[t].SignalAdd? then s.pc[t].count else 0
  {
  }

  /** A signal adds what it was asked to. */
  lemma SignalAddsItsCount(states: seq<State>, acts: seq<Action>, t: nat, count: nat)
    requires IsCall(states, acts, t, StartSignal(t, count))
    ensures Added(states, acts, t, |acts|) == count && Taken(states, acts, t, |acts|) == 0
  {
    hide Reachable, Moves;
    SignalGoesOn(states, acts, t, count, |acts|);
  }

  // ----- with nobody else about -----

  /** A try, or a wait for some, that finds permits and is not disturbed has them in two steps. */
  lemma TakesAlone(s: State, t: nat, max: nat, waits: bool)
    requires t < |s.pc| && s.pc[t] == Idle && s.count > 0 && (waits ==> max > 0)
    ensures var call := if waits then StartWait(t, max) else StartTry(t, max);
      && Enabled(s, call) && Enabled(Next(s, call), Run(t, true))
      && var s1 := Step(Next(s, call), t, true);
         && Enabled(s1, Run(t, true))
         && var s2 := Step(s1, t, true);
            AtRest(s2, t) && s2.acquired == s.acquired + Min(max, s.count) && s2.count == s.count - Min(max, s.count)
  {
  }
}
