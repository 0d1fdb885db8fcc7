/** A dequeue that nobody interferes with takes the next elements of the sub-queue, as many as it asks for or
    as there are; and no dequeue takes more than a bounded number of steps. */
module DequeueCalls {
  import opened Options
  import opened Words
  import opened SubQueues
  import opened SubQueueInvariant
  import opened SubQueueSafety
  import opened SubQueueCalls
  import Tickets
  import TicketCalls

  /** The next operation of thread t. */
  function OwnAction(s: State, t: nat): Action {
    if t < |s.tk.pc| && s.tk.pc[t].Claimed? then RunReader(t) else RunDequeue(t)
  }

  /** The state after k operations of thread t, or when its call has returned. */
  function After(s: State, t: nat, k: nat): State
    decreases k
  {
    if k == 0 || !Enabled(s, OwnAction(s, t)) then s else After(Next(s, OwnAction(s, t)), t, k - 1)
  }

  // ----- the blocks -----

  /** The operations that a reader has left. */
  function ReaderLeft(r: Reader, first: int, stop: int): int {
    match r
    case Away => 0
    case LoadIndex => 3 * (stop - first) + 3
    case LoadFront(_) => 3 * (stop - first) + 2
    case LoadBase(_, _, _) => 3 * (stop - first) + 1
    case LoadBlock(_, _, index) => 3 * (stop - index)
    case Take(_, _, _, from, index, end) => (end - index) + (end - from) + 3 * (stop - end)
    case SetEmpty(_, _, _, from, end, j) => (end - from - j) + 3 * (stop - end)
  }

  lemma ReaderLeftIsNatural(hs: seq<Header>, assign: seq<nat>, log: seq<Item>, r: Reader, first: int, stop: int, got: seq<Option<Item>>)
    requires ReaderOk(hs, assign, log, r, first, stop, got)
    ensures !r.Away? && 0 < ReaderLeft(r, first, stop) <= 3 * (stop - first) + 3
    ensures r.LoadBlock? ==> r.index < stop
    ensures r.Take? || r.SetEmpty? ==> r.from < r.end <= stop
    ensures (r.Take? ==> r.index < r.end) && (r.SetEmpty? ==> r.j < r.end - r.from)
  {
    hide Covers, GotUpTo;
  }

  /** What one operation on the blocks does to the thread and what it leaves as it is. */
  lemma ReaderFrame(s: State, t: nat)
    requires Enabled(s, RunReader(t)) && s.tk.pc[t].Claimed?
    ensures var s' := ReaderStep(s, t);
      && |s'.readers| == |s.readers| && |s'.tk.pc| == |s.tk.pc| && s'.log == s.log && s'.tk.claims == s.tk.claims && s'.tk.tail == s.tk.tail
      && (s'.readers[t] != Away ==> s'.tk == s.tk)
      && (s'.readers[t] == Away ==> s'.tk == s.tk.(pc := s.tk.pc[t := Tickets.Idle]) || (s.readers[t] != Away && !s.readers[t].SetEmpty?))
  {
    hide PutCell, PutFlag, SlotOf, EndIndex;
  }

  lemma ReaderFalls(s: State, t: nat)
    requires Reachable(s) && Enabled(s, RunReader(t)) && ReaderStep(s, t).readers[t] != Away
    ensures ReaderLeft(ReaderStep(s, t).readers[t], First(s, t), Stop(s, t)) < ReaderLeft(s.readers[t], First(s, t), Stop(s, t))
  {
    hide Reachable, ReaderStep, ReaderOk;
    var s' := ReaderStep(s, t);
    ReachableInv(s);
    ThreadFacts(s, t);
    ReaderFrame(s, t);
    StepStaysReachable(s, RunReader(t));
    ReachableInv(s');
    ThreadFacts(s', t);
    ReaderLeftIsNatural(s.own.headers, s.assign, s.log, s.readers[t], First(s, t), Stop(s, t), s.got[t]);
    ReaderLeftIsNatural(s'.own.headers, s'.assign, s'.log, s'.readers[t], First(s, t), Stop(s, t), s'.got[t]);
    ReaderMoves(s, t);
  }

  lemma ReaderMoves(s: State, t: nat)
    requires Enabled(s, RunReader(t)) && ReaderStep(s, t).readers[t] != Away
    requires var r, r' := s.readers[t], ReaderStep(s, t).readers[t];
      && (r.Take? || r.SetEmpty? ==> r.from < r.end <= Stop(s, t))
      && (r.Take? ==> r.index < r.end) && (r.SetEmpty? ==> r.j < r.end - r.from)
      && (r'.Take? || r'.SetEmpty? ==> r'.from < r'.end <= Stop(s, t))
    ensures ReaderLeft(ReaderStep(s, t).readers[t], First(s, t), Stop(s, t)) < ReaderLeft(s.readers[t], First(s, t), Stop(s, t))
  {
    hide PutCell, PutFlag, SlotOf, EndIndex, Tickets.Next;
  }

  /** From the claim on, the thread's own operations come to an end, and it has all elements of its claim. */
  lemma {:induction false} ReaderRun(s: State, t: nat) returns (s': State, k: nat)
    requires Reachable(s) && t < |s.readers| && t < |s.tk.pc| && s.readers[t] != Away
    ensures Reachable(s') && s' == After(s, t, k) && k <= ReaderLeft(s.readers[t], First(s, t), Stop(s, t))
    ensures t < |s'.got| && 0 <= First(s, t) < Stop(s, t) <= |s.log| && s'.got[t] == Elements(s.log, First(s, t), Stop(s, t))
    ensures s'.log == s.log && s'.tk == s.tk.(pc := s.tk.pc[t := Tickets.Idle]) && t < |s'.readers| && s'.readers[t] == Away
    decreases ReaderLeft(s.readers[t], First(s, t), Stop(s, t))
  {
    hide Reachable, ReaderOk, Next, Enabled, Steady;
    ReachableInv(s);
    ThreadFacts(s, t);
    ReaderLeftIsNatural(s.own.headers, s.assign, s.log, s.readers[t], First(s, t), Stop(s, t), s.got[t]);
    ReaderCanStep(s, t);
    var s1 := Next(s, RunReader(t));
    StepStaysReachable(s, RunReader(t));
    ReaderFrame(s, t);
    if s1.readers[t] == Away {
      ReturnedDequeueIsWhole(s, t);
      LastStep(s, t);
      s', k := s1, 1;
      AfterOne(s, t);
    } else {
      ReaderFalls(s, t);
      var k1;
      s', k1 := ReaderRun(s1, t);
      k := k1 + 1;
    }
  }

  lemma ReaderCanStep(s: State, t: nat)
    requires Reachable(s) && t < |s.readers| && s.readers[t] != Away
    ensures Enabled(s, RunReader(t)) && Steady(s, RunReader(t)) && Next(s, RunReader(t)) == ReaderStep(s, t)
    ensures t < |s.tk.pc| && OwnAction(s, t) == RunReader(t)
  {
    hide Reachable, ReaderStep;
    ReachableInv(s);
    ThreadFacts(s, t);
    ThreadCounts(s);
    hide Tickets.Inv, MemOk, FreeOk, SeenOk, CellsOk, LiveOk, RingOk, HeadersOk, CurrentOk, TailOk, ThreadsOk, ReaderOk;
  }

  lemma AfterOne(s: State, t: nat)
    requires Enabled(s, OwnAction(s, t))
    ensures After(s, t, 1) == Next(s, OwnAction(s, t))
  {
    hide Next, Enabled;
    assert After(Next(s, OwnAction(s, t)), t, 0) == Next(s, OwnAction(s, t));
  }

  // ----- the counters -----

  lemma CounterCanStep(s: State, t: nat)
    requires Reachable(s) && t < |s.tk.pc| && s.tk.pc[t] != Tickets.Idle && !s.tk.pc[t].Claimed?
    ensures Enabled(s, RunDequeue(t)) && OwnAction(s, t) == RunDequeue(t) && t < |s.readers| == |s.got| == |s.tk.pc|
  {
    hide Reachable;
    ReachableInv(s);
    ThreadCounts(s);
    hide Tickets.Inv, MemOk, FreeOk, SeenOk, CellsOk, LiveOk, RingOk, HeadersOk, CurrentOk, TailOk, ThreadsOk;
  }

  lemma CounterFrame(s: State, t: nat)
    requires Enabled(s, RunDequeue(t)) && t < |s.readers| == |s.got| == |s.tk.pc|
    ensures var s' := Next(s, RunDequeue(t));
      && s'.tk == Tickets.Step(s.tk, t) && s'.log == s.log && |s'.readers| == |s.readers| && |s'.got| == |s.got|
      && s'.readers[t] == (if ClaimsSome(s.tk.pc[t]) then LoadIndex else s.readers[t])
  {
    hide Tickets.Step;
  }

  /** The operations on the counters up to the claim. */
  lemma {:induction false} CounterRun(s: State, t: nat) returns (s': State, k: nat)
    requires Reachable(s) && TicketCalls.Undisturbed(s.tk, t)
    ensures Reachable(s') && s' == After(s, t, k) && k <= TicketCalls.StepsLeft(s.tk.pc[t])
    ensures TicketCalls.HasGot(s'.tk, t, Tickets.Head(s.tk), TicketCalls.Due(s.tk, t))
    ensures s'.log == s.log && t < |s'.readers| == |s'.tk.pc| && (TicketCalls.Due(s.tk, t) > 0 ==> s'.readers[t] == LoadIndex)
    decreases TicketCalls.StepsLeft(s.tk.pc[t])
  {
    hide Reachable, Next, Enabled, Tickets.Step, TicketCalls.HasGot;
    UndisturbedIsBusy(s.tk, t);
    CounterCanStep(s, t);
    TicketEnabled(s, t);
    var s1 := Next(s, RunDequeue(t));
    TicketCalls.GoesOn(s.tk, t);
    TicketCalls.StepsFall(s.tk, t);
    StepStaysReachable(s, RunDequeue(t));
    CounterFrame(s, t);
    if s.tk.pc[t].Claim? || s1.tk.pc[t] == Tickets.Idle {
      s', k := s1, 1;
      AfterOne(s, t);
      DueAtTheEnd(s.tk, t);
    } else {
      var k1;
      s', k1 := CounterRun(s1, t);
      k := k1 + 1;
    }
  }

  lemma UndisturbedIsBusy(tk: Tickets.State, t: nat)
    requires TicketCalls.Undisturbed(tk, t)
    ensures t < |tk.pc| && tk.pc[t] != Tickets.Idle && !tk.pc[t].Claimed?
  {
  }

  lemma TicketEnabled(s: State, t: nat)
    requires Enabled(s, RunDequeue(t))
    ensures Tickets.Enabled(s.tk, Tickets.Run(t))
  {
  }

  /** Where the call ends without a claim nothing was due. */
  lemma DueAtTheEnd(tk: Tickets.State, t: nat)
    requires TicketCalls.Undisturbed(tk, t) && Tickets.Enabled(tk, Tickets.Run(t))
    requires tk.pc[t].Claim? || Tickets.Step(tk, t).pc[t] == Tickets.Idle
    ensures TicketCalls.Due(tk, t) > 0 ==> tk.pc[t].Claim? && tk.pc[t].n > 0
  {
    TicketCalls.GoesOn(tk, t);
  }

  // ----- the whole call -----

  lemma StartsQuietly(s: State, t: nat, max: nat)
    requires Reachable(s) && TicketCalls.Quiet(s.tk) && t < |s.tk.pc| && s.tk.pc[t] == Tickets.Idle
    ensures Enabled(s, StartDequeue(t, max)) && Steady(s, StartDequeue(t, max)) && Tickets.Head(s.tk) <= s.tk.tail == |s.log|
    ensures var s' := Next(s, StartDequeue(t, max));
      && t < |s'.tk.pc|
      && TicketCalls.Undisturbed(s'.tk, t) && TicketCalls.Due(s'.tk, t) == TicketCalls.Min(max, s.tk.tail - Tickets.Head(s.tk))
      && TicketCalls.StepsLeft(s'.tk.pc[t]) == 7
      && Tickets.Head(s'.tk) == Tickets.Head(s.tk) && s'.log == s.log
  {
    hide Reachable, Tickets.Inv;
    ReachableInv(s);
    HeadIsClose(s);
    ThreadCounts(s);
    hide MemOk, FreeOk, SeenOk, CellsOk, LiveOk, RingOk, HeadersOk, CurrentOk, TailOk, ThreadsOk;
    TicketCalls.QuietStart(s.tk, t, max);
  }

  /** While nobody else is between drawing tickets and claiming, a dequeue of at most max elements that runs on
      its own comes to an end, and has taken the next min(max, size) elements in the order of the log. */
  lemma DequeueAlone(s: State, t: nat, max: nat) returns (s': State, k: nat)
    requires Reachable(s) && TicketCalls.Quiet(s.tk) && t < |s.tk.pc| && s.tk.pc[t] == Tickets.Idle
    ensures Enabled(s, StartDequeue(t, max)) && Reachable(s') && s' == After(Next(s, StartDequeue(t, max)), t, k)
    ensures var head, n := Tickets.Head(s.tk), TicketCalls.Min(max, |s.log| - Tickets.Head(s.tk));
      && 0 <= n && head + n <= |s.log| && k <= 3 * n + 10
      && t < |s'.tk.pc| && s'.tk.pc[t] == Tickets.Idle && t < |s'.readers| && s'.readers[t] == Away && t < |s'.got|
      && Tickets.Head(s'.tk) == head + n && s'.log == s.log
      && (n > 0 ==> s'.got[t] == Elements(s.log, head, head + n))
  {
    hide Reachable, Next, Enabled, Steady, TicketCalls.Undisturbed, TicketCalls.Quiet, TicketCalls.Due, Elements;
    StartsQuietly(s, t, max);
    StepStaysReachable(s, StartDequeue(t, max));
    var s0 := Next(s, StartDequeue(t, max));
    var s1, k1 := CounterRun(s0, t);
    if TicketCalls.Due(s0.tk, t) > 0 {
      ClaimedFirst(s1, t, Tickets.Head(s.tk), TicketCalls.Due(s0.tk, t));
      var k2;
      s', k2 := ReaderRun(s1, t);
      k := k1 + k2;
      AfterAfter(s0, t, k1, k2);
    } else {
      s', k := s1, k1;
      AwayAtRest(s1, t);
    }
  }

  lemma ClaimedFirst(s: State, t: nat, head: nat, n: int)
    requires TicketCalls.HasGot(s.tk, t, head, n) && n > 0 && t < |s.readers| && s.readers[t] == LoadIndex
    ensures t < |s.tk.pc| && First(s, t) == head && Stop(s, t) == head + n && ReaderLeft(s.readers[t], head, head + n) == 3 * n + 3
  {
  }

  lemma AwayAtRest(s: State, t: nat)
    requires Reachable(s) && t < |s.tk.pc| && !s.tk.pc[t].Claimed?
    ensures t < |s.readers| == |s.got| && s.readers[t] == Away
  {
    hide Reachable;
    ReachableInv(s);
    ThreadCounts(s);
    if s.readers[t] != Away { ThreadFacts(s, t); }
  }

  lemma {:induction false} AfterAfter(s: State, t: nat, k: nat, m: nat)
    ensures After(s, t, k + m) == After(After(s, t, k), t, m)
    decreases k
  {
    hide Next, Enabled;
    if k > 0 && Enabled(s, OwnAction(s, t)) {
      AfterAfter(Next(s, OwnAction(s, t)), t, k - 1, m);
    } else if k > 0 {
      Still(s, t, m);
      Still(s, t, k + m);
    }
  }

  lemma Still(s: State, t: nat, k: nat)
    requires !Enabled(s, OwnAction(s, t))
    ensures After(s, t, k) == s
  {
  }
}
