/** What a call on the thread-id table comes to: it returns the producer that the thread is bound to, or
    nothing, and that only where an allocation fails.  The probes it makes and the steps it takes are
    bounded, but for the wait while another thread adds a table. */
module ThreadHashCalls {
  import opened Options
  import opened ThreadHashes
  import opened ThreadHashMap
  import ThreadHashRoom
  import ThreadHashBound

  // ----- a call among the steps of all threads -----

  /** The states that the actions go through. */
  ghost predicate IsTrace(states: seq<State>, acts: seq<Action>) {
    && |states| == |acts| + 1 && Reachable(states[0])
    && forall i :: 0 <= i < |acts| ==> Moves(states[i], acts[i], states[i + 1])
  }

  predicate AtRest(s: State, t: nat) { t < |s.threads| && s.threads[t].pc == Idle }

  /** From the call to its return. */
  ghost predicate IsCall(states: seq<State>, acts: seq<Action>, t: nat) {
    && IsTrace(states, acts) && acts != [] && acts[0] == Call(t)
    && (forall i :: 0 < i < |acts| ==> !AtRest(states[i], t))
    && AtRest(states[|acts|], t)
  }

  /** The two places at which an allocation can fail: for a larger table, and for a producer. */
  predicate Fails(s: State, a: Action, t: nat) {
    && a.Run? && a.t == t && !a.ok && t < |s.threads|
    && (s.threads[t].pc.Recycle? || (s.threads[t].pc.Grow? && s.threads[t].pc.n >= Capacity(s, Main(s)) / 2))
  }

  /** One of them has failed within the first i actions. */
  ghost predicate Failed(states: seq<State>, acts: seq<Action>, t: nat, i: nat)
    requires i <= |acts| < |states|
  {
    exists k :: 0 <= k < i && Fails(states[k], acts[k], t)
  }

  predicate Searching(pc: PC) { pc.LoadMain? || pc.Probe? || pc.CopyTo? }

  /** The thread is in a call that it began with the binding b0; an allocation has failed in it or not. */
  predicate InCall(th: Thread, b0: Option<nat>, failed: bool) {
    if failed then (th.pc.GiveUp? || th.pc.ClearLock?) && th.result == None && b0 == None
    else if th.pc.Uncount? then b0 == None && th.result.Some? && th.bound == th.result
    else th.bound == b0 && th.result == None && (Searching(th.pc) || (b0 == None && Joining(th.pc)))
  }

  /** How it ends: with the binding from before the call, if there was one, and with nothing if it failed. */
  predicate Ended(th: Thread, b0: Option<nat>, failed: bool) {
    && th.pc == Idle
    && if failed then th.result == None && b0 == None
       else th.result.Some? && th.result == th.bound && (b0.Some? ==> th.result == b0)
  }

  predicate GoesOn(th: Thread, b0: Option<nat>, failed: bool) { InCall(th, b0, failed) || Ended(th, b0, failed) }

  lemma ProbeGoesOn(s: State, t: nat, b0: Option<nat>)
    requires t < |s.threads| == |s.hash| && InCall(s.threads[t], b0, false) && s.threads[t].pc.Probe?
    requires PcOk(s.tables, s.hash[t], t, s.threads[t])
    ensures var s' := ProbeStep(s, t, s.threads[t].pc.main, s.threads[t].pc.h, s.threads[t].pc.d);
      && |s'.threads| == |s.threads|
      && (|s'.hash| == |s'.threads| && PcOk(s'.tables, s'.hash[t], t, s'.threads[t]) ==> GoesOn(s'.threads[t], b0, false))
  {
    hide At, Index, NoneAbove, Passed, Somewhere, InUse;
  }

  lemma CopyGoesOn(s: State, t: nat, b0: Option<nat>)
    requires t < |s.threads| == |s.hash| && InCall(s.threads[t], b0, false) && s.threads[t].pc.CopyTo?
    requires PcOk(s.tables, s.hash[t], t, s.threads[t])
    ensures var s' := CopyStep(s, t, s.threads[t].pc.main, s.threads[t].pc.d, s.threads[t].pc.value);
      |s'.threads| == |s.threads| && GoesOn(s'.threads[t], b0, false)
  {
    hide At, Index, Put, NoneAbove, Passed, Somewhere, InUse;
  }

  lemma TriesGoOn(s: State, t: nat, b0: Option<nat>)
    requires t < |s.threads| == |s.hash| && InCall(s.threads[t], b0, false)
    ensures s.threads[t].pc.TryTomb? ==>
      var s' := TombStep(s, t, s.threads[t].pc.main, s.threads[t].pc.d, s.threads[t].pc.p);
      |s'.threads| == |s.threads| && GoesOn(s'.threads[t], b0, false)
    ensures s.threads[t].pc.TryEmpty? ==>
      var s' := EmptyStep(s, t, s.threads[t].pc.main, s.threads[t].pc.d, s.threads[t].pc.p);
      |s'.threads| == |s.threads| && GoesOn(s'.threads[t], b0, false)
  {
    hide At, Index, Put;
  }

  lemma AllocationsGoOn(s: State, t: nat, ok: bool, p: nat, b0: Option<nat>)
    requires t < |s.threads| && InCall(s.threads[t], b0, false)
    ensures s.threads[t].pc.Grow? ==>
      var s' := GrowStep(s, t, s.threads[t].pc.n, ok);
      |s'.threads| == |s.threads| && GoesOn(s'.threads[t], b0, Fails(s, Action.Run(t, ok, p), t))
    ensures s.threads[t].pc.Recycle? ==>
      var s' := RecycleStep(s, t, s.threads[t].pc.main, ok, p);
      |s'.threads| == |s.threads| && GoesOn(s'.threads[t], b0, Fails(s, Action.Run(t, ok, p), t))
  {
    hide NewCapacity;
  }

  lemma StepGoesOn(s: State, t: nat, ok: bool, p: nat, b0: Option<nat>, failed: bool)
    requires Inv(s) && Enabled(s, Action.Run(t, ok, p)) && InCall(s.threads[t], b0, failed)
    ensures var s' := Step(s, t, ok, p);
      |s'.threads| == |s.threads| && GoesOn(s'.threads[t], b0, failed || Fails(s, Action.Run(t, ok, p), t))
  {
    hide ProbeStep, CopyStep, TombStep, EmptyStep, GrowStep, RecycleStep, Inv, PcOk;
    StepKeeps(s, t, ok, p);
    PcFact(s, t);
    var pc := s.threads[t].pc;
    if !failed && pc.Probe? {
      ProbeGoesOn(s, t, b0);
      PcFact(Step(s, t, ok, p), t);
    } else if !failed && pc.CopyTo? {
      CopyGoesOn(s, t, b0);
    } else if !failed && (pc.TryTomb? || pc.TryEmpty?) {
      TriesGoOn(s, t, b0);
    } else if !failed && (pc.Grow? || pc.Recycle?) {
      AllocationsGoOn(s, t, ok, p, b0);
    }
  }

  lemma ActionGoesOn(s: State, a: Action, t: nat, b0: Option<nat>, failed: bool)
    requires Inv(s) && Enabled(s, a) && t < |s.threads| && InCall(s.threads[t], b0, failed)
    ensures var s' := Next(s, a); |s'.threads| == |s.threads| && GoesOn(s'.threads[t], b0, failed || Fails(s, a, t))
  {
    hide Inv, Step;
    if a.Run? {
      StepOf(s, a.t, a.ok, a.p);
      if a.t == t { StepGoesOn(s, t, a.ok, a.p, b0, failed); }
    }
  }

  lemma {:induction false} TraceInv(states: seq<State>, acts: seq<Action>, i: nat)
    requires IsTrace(states, acts) && i <= |acts|
    ensures Inv(states[i])
  {
    hide Inv, Reachable, Enabled, Next;
    if i == 0 {
      ReachableInv(states[0]);
    } else {
      TraceInv(states, acts, i - 1);
      assert Moves(states[i - 1], acts[i - 1], states[i - 1 + 1]);
      NextInv(states[i - 1], acts[i - 1]);
    }
  }

  lemma FailedLater(states: seq<State>, acts: seq<Action>, t: nat, i: nat)
    requires i < |acts| < |states|
    ensures Failed(states, acts, t, i + 1) == (Failed(states, acts, t, i) || Fails(states[i], acts[i], t))
  {
    hide Fails;
  }

  lemma CallBegins(s: State, t: nat)
    requires Enabled(s, Call(t))
    ensures var s' := Next(s, Call(t)); t < |s'.threads| && InCall(s'.threads[t], s.threads[t].bound, false) && !Fails(s, Call(t), t)
  {
  }

  lemma {:induction false} CallGoesOn(states: seq<State>, acts: seq<Action>, t: nat, i: nat)
    requires IsTrace(states, acts) && acts != [] && acts[0] == Call(t) && 0 < i <= |acts|
    requires forall k :: 0 < k < i ==> !AtRest(states[k], t)
    ensures t < |states[i].threads| && t < |states[0].threads|
    ensures GoesOn(states[i].threads[t], states[0].threads[t].bound, Failed(states, acts, t, i))
  {
    hide Inv, Reachable, Next, Fails, Failed, InCall;
    assert Moves(states[i - 1], acts[i - 1], states[i - 1 + 1]);
    FailedLater(states, acts, t, i - 1);
    if i == 1 {
      CallBegins(states[0], t);
      assert !Failed(states, acts, t, 0) by { NoneFailedYet(states, acts, t); }
    } else {
      CallGoesOn(states, acts, t, i - 1);
      TraceInv(states, acts, i - 1);
      ActionGoesOn(states[i - 1], acts[i - 1], t, states[0].threads[t].bound, Failed(states, acts, t, i - 1));
    }
  }

  lemma NoneFailedYet(states: seq<State>, acts: seq<Action>, t: nat)
    requires |acts| < |states|
    ensures !Failed(states, acts, t, 0)
  {
  }

  /** However the steps of the other threads fall between, a call gives a thread that was bound its producer
      again; one that was not is bound now, to the producer it gets, unless an allocation failed for it. */
  lemma CallReturnsTheBinding(states: seq<State>, acts: seq<Action>, t: nat)
    requires IsCall(states, acts, t)
    ensures t < |states[0].threads|
    ensures var b0, th := states[0].threads[t].bound, states[|acts|].threads[t];
      && (b0.Some? ==> th.result == b0 && !Failed(states, acts, t, |acts|))
      && (if Failed(states, acts, t, |acts|) then th.result == None else th.result.Some? && th.result == th.bound)
  {
    hide Reachable, Inv, Next, Fails;
    CallGoesOn(states, acts, t, |acts|);
    InCallIsBusy(states[|acts|].threads[t], states[0].threads[t].bound, Failed(states, acts, t, |acts|));
  }

  lemma InCallIsBusy(th: Thread, b0: Option<nat>, failed: bool)
    ensures InCall(th, b0, failed) ==> th.pc != Idle
  {
  }

  /** A thread that is gone has left its producer to be recycled: nobody owns it. */
  lemma ExitFreesTheProducer(s: State, a: Action, t: nat, u: nat)
    requires Reachable(s) && Enabled(s, a) && t < |s.threads| && s.threads[t].bound.Some?
    requires u < |Next(s, a).threads| && t < |Next(s, a).threads| && Next(s, a).threads[t].pc == Dead
    ensures var s', p := Next(s, a), s.threads[t].bound.value;
      p < |s'.inactive| && s'.inactive[p] && Owned(s'.threads[u]) != Some(p)
  {
    hide Inv, Reachable, Step, Found, NoneAbove, Passed, InUse, Somewhere;
    ReachableInv(s);
    BoundFacts(s, t);
    NextInv(s, a);
    OwnersFact(s);
    OwnersFact(Next(s, a));
    assert Owned(s.threads[t]) == s.threads[t].bound;
    if a.Run? {
      StepOf(s, a.t, a.ok, a.p);
      assert a.t == t;
      OnlyRetired(s, t, a.ok, a.p);
    }
  }

  lemma OwnersFact(s: State)
    requires Inv(s)
    ensures OwnersOk(s.threads, s.inactive)
  {
    hide OwnersOk;
  }

  lemma OnlyRetired(s: State, t: nat, ok: bool, p: nat)
    requires Enabled(s, Action.Run(t, ok, p)) && t < |Step(s, t, ok, p).threads| && Step(s, t, ok, p).threads[t].pc == Dead
    ensures s.threads[t].pc == Retire && Step(s, t, ok, p) == RetireStep(s, t)
  {
    hide At, Put, Index, NewCapacity, RetireStep;
  }

  // ----- it gets on -----

  /** Where in the call: a step leads to a lower phase, or to fewer slots to probe in the same one. */
  function Phase(pc: PC): nat {
    match pc
    case LoadMain => 14
    case Probe(_, _, _) => 13
    case CountUp(_) => 12
    case Check(_, _) => 10
    case Grow(_) => 9
    case Unlock(_, _) => 8
    case Room(_, _) => 7
    case Recycle(_) => 6
    case TryTomb(_, _, _) => 5
    case TryEmpty(_, _, _) => 5
    case CopyTo(_, _, _) => 4
    case Erase(_, _) => 4
    case GiveUp(_) => 3
    case ClearLock => 2
    case Uncount => 1
    case Retire => 1
    case Idle => 0
    case Dead => 0
  }

  /** The slots of table h and of those before it. */
  function SlotsUpTo(s: State, h: nat): nat { Capacity(s, h) + if h == 0 then 0 else SlotsUpTo(s, h - 1) }

  function SlotsLeft(s: State, pc: PC): int {
    match pc
    case Probe(_, h, d) => SlotsUpTo(s, h) - d
    case Erase(h, d) => SlotsUpTo(s, h) - d
    case CopyTo(main, d, _) => Capacity(s, main) - d
    case TryTomb(main, d, _) => 2 * (Capacity(s, main) - d)
    case TryEmpty(main, d, _) => 2 * (Capacity(s, main) - d) - 1
    case _ => 0
  }

  /** Before the step and after it. */
  predicate GetsOn(s: State, pc: PC, s': State, pc': PC) {
    Phase(pc') < Phase(pc) || (Phase(pc') == Phase(pc) && 0 <= SlotsLeft(s', pc') < SlotsLeft(s, pc))
  }

  /** The number is too high for the table that the thread saw. */
  predicate TooHigh(s: State, pc: PC) {
    pc.Room? && pc.n >= Capacity(s, pc.main) / 2 + Capacity(s, pc.main) / 4
  }

  lemma ProbeGetsOn(s: State, t: nat)
    requires t < |s.threads| == |s.hash| && s.tables != []
    requires var pc := s.threads[t].pc; pc.Probe? && pc.h <= pc.main < |s.tables| && pc.d < |s.tables[pc.h]|
    ensures var s' := ProbeStep(s, t, s.threads[t].pc.main, s.threads[t].pc.h, s.threads[t].pc.d);
      |s'.threads| == |s.threads| && s'.tables == s.tables && GetsOn(s, s.threads[t].pc, s', s'.threads[t].pc)
  {
    hide At, Index;
    SameSlots(s, ProbeStep(s, t, s.threads[t].pc.main, s.threads[t].pc.h, s.threads[t].pc.d), s.threads[t].pc.h);
    if s.threads[t].pc.h > 0 {
      SameSlots(s, ProbeStep(s, t, s.threads[t].pc.main, s.threads[t].pc.h, s.threads[t].pc.d), s.threads[t].pc.h - 1);
    }
  }

  lemma {:induction false} SameSlots(s: State, s': State, h: nat)
    requires h < |s.tables| <= |s'.tables| && forall k :: 0 <= k < |s.tables| ==> |s'.tables[k]| == |s.tables[k]|
    ensures SlotsUpTo(s', h) == SlotsUpTo(s, h)
  {
    if h > 0 { SameSlots(s, s', h - 1); }
  }

  lemma EraseGetsOn(s: State, t: nat)
    requires t < |s.threads| == |s.hash| && s.tables != []
    requires var pc := s.threads[t].pc; pc.Erase? && pc.h < |s.tables| && pc.d < |s.tables[pc.h]|
    ensures var s' := EraseStep(s, t, s.threads[t].pc.h, s.threads[t].pc.d);
      |s'.threads| == |s.threads| && GetsOn(s, s.threads[t].pc, s', s'.threads[t].pc)
  {
    hide At, Index, Put;
    var pc := s.threads[t].pc;
    var s' := EraseStep(s, t, pc.h, pc.d);
    ThreadHashBound.ProbesGrow(s, t);
    SameSlots(s, s', pc.h);
    if pc.h > 0 { SameSlots(s, s', pc.h - 1); }
  }

  lemma CopyGetsOn(s: State, t: nat)
    requires t < |s.threads| == |s.hash| && s.tables != []
    requires var pc := s.threads[t].pc; pc.CopyTo? && pc.main < |s.tables| && pc.d < |s.tables[pc.main]|
    ensures var s' := CopyStep(s, t, s.threads[t].pc.main, s.threads[t].pc.d, s.threads[t].pc.value);
      |s'.threads| == |s.threads| && GetsOn(s, s.threads[t].pc, s', s'.threads[t].pc)
  {
    hide At, Index, Put;
  }

  lemma TriesGetOn(s: State, t: nat)
    requires t < |s.threads| == |s.hash| && s.tables != []
    requires var pc := s.threads[t].pc; (pc.TryTomb? || pc.TryEmpty?) && pc.main < |s.tables| && pc.d < |s.tables[pc.main]|
    ensures s.threads[t].pc.TryTomb? ==>
      var s' := TombStep(s, t, s.threads[t].pc.main, s.threads[t].pc.d, s.threads[t].pc.p);
      |s'.threads| == |s.threads| && GetsOn(s, s.threads[t].pc, s', s'.threads[t].pc)
    ensures s.threads[t].pc.TryEmpty? ==>
      var s' := EmptyStep(s, t, s.threads[t].pc.main, s.threads[t].pc.d, s.threads[t].pc.p);
      |s'.threads| == |s.threads| && GetsOn(s, s.threads[t].pc, s', s'.threads[t].pc)
  {
    hide At, Index, Put;
  }

  lemma AllocationsGetOn(s: State, t: nat, ok: bool, p: nat)
    requires t < |s.threads|
    ensures s.threads[t].pc.Grow? ==>
      var s' := GrowStep(s, t, s.threads[t].pc.n, ok); |s'.threads| == |s.threads| && GetsOn(s, s.threads[t].pc, s', s'.threads[t].pc)
    ensures s.threads[t].pc.Recycle? ==>
      var s' := RecycleStep(s, t, s.threads[t].pc.main, ok, p);
      |s'.threads| == |s.threads| && GetsOn(s, s.threads[t].pc, s', s'.threads[t].pc)
    ensures s.threads[t].pc.Retire? ==>
      var s' := RetireStep(s, t); |s'.threads| == |s.threads| && GetsOn(s, s.threads[t].pc, s', s'.threads[t].pc)
  {
    hide NewCapacity, SlotsLeft;
  }

  lemma RestGetsOn(s: State, t: nat, ok: bool, p: nat)
    requires Enabled(s, Action.Run(t, ok, p)) && !ThreadHashRoom.Probing(s.threads[t].pc)
    ensures var s' := Step(s, t, ok, p);
      |s'.threads| == |s.threads| && (GetsOn(s, s.threads[t].pc, s', s'.threads[t].pc) || (TooHigh(s, s.threads[t].pc) && s'.threads[t].pc.Check?))
  {
    hide ProbeStep, CopyStep, EraseStep, TombStep, EmptyStep, GrowStep, RecycleStep, RetireStep, SlotsLeft, Capacity;
    AllocationsGetOn(s, t, ok, p);
  }

  /** Every step of a call, or of an exit, gets the thread on, as long as no more threads are inside the table
      at once than half the slots of the first table and one; or else its number is too high for the table it
      saw, and it looks for a larger one. */
  lemma StepGetsOn(r: ThreadHashRoom.Hist, c: nat, t: nat, ok: bool, p: nat)
    requires ThreadHashBound.ReachableBy(r, c) && r.s.tables != [] && 2 * c <= |r.s.tables[0]| + 2
    requires Enabled(r.s, Action.Run(t, ok, p))
    ensures var s, s' := r.s, Step(r.s, t, ok, p);
      && |s'.threads| == |s.threads|
      && (GetsOn(s, s.threads[t].pc, s', s'.threads[t].pc) || (TooHigh(s, s.threads[t].pc) && s'.threads[t].pc.Check?))
  {
    hide ThreadHashBound.ReachableBy, ThreadHashRoom.Inv, ThreadHashRoom.Reachable, ProbeStep, CopyStep, EraseStep, TombStep, EmptyStep, GetsOn;
    var s := r.s;
    ThreadHashBound.AlsoReachable(r, c);
    ThreadHashRoom.ReachableInv(r);
    ThreadHashBound.LastTable(r);
    if ThreadHashRoom.Probing(s.threads[t].pc) {
      ThreadHashBound.ProbeLoopsEnd(r, c, t);
      ProbesBelowMain(r, t);
      if s.threads[t].pc.Probe? { ProbeGetsOn(s, t); }
      else if s.threads[t].pc.Erase? { EraseGetsOn(s, t); }
      else if s.threads[t].pc.CopyTo? { CopyGetsOn(s, t); }
      else { TriesGetOn(s, t); }
    } else {
      RestGetsOn(s, t, ok, p);
    }
  }

  lemma ProbesBelowMain(r: ThreadHashRoom.Hist, t: nat)
    requires ThreadHashRoom.Inv(r) && t < |r.s.threads|
    ensures r.s.threads[t].pc.Probe? ==> r.s.threads[t].pc.h <= r.s.threads[t].pc.main < |r.s.tables|
  {
    hide ThreadHashRoom.NumbersOk, ThreadHashRoom.SizesOk, ThreadHashRoom.RoomOk;
    PcFact(r.s, t);
  }

  lemma SamePlace(s: State, s': State, pc: PC)
    requires pc.Probe? || pc.Erase? ==> pc.h < |s.tables|
    requires pc.Check? || pc.Room? || pc.CopyTo? || pc.TryTomb? || pc.TryEmpty? ==> pc.main < |s.tables|
    requires |s.tables| <= |s'.tables| && forall k :: 0 <= k < |s.tables| ==> |s'.tables[k]| == |s.tables[k]|
    ensures SlotsLeft(s', pc) == SlotsLeft(s, pc) && TooHigh(s', pc) == TooHigh(s, pc)
  {
    if pc.Probe? || pc.Erase? { SameSlots(s, s', pc.h); }
  }

  /** And what the others do does not set it back. */
  lemma OthersDoNotDelay(s: State, a: Action, t: nat)
    requires Inv(s) && Enabled(s, a) && t < |s.threads| && a.t != t
    ensures var s' := Next(s, a); var pc := s.threads[t].pc;
      && |s'.threads| == |s.threads| && s'.threads[t].pc == pc
      && SlotsLeft(s', pc) == SlotsLeft(s, pc) && TooHigh(s', pc) == TooHigh(s, pc)
  {
    hide Step, SlotsLeft, TooHigh, Found, NoneAbove, Passed, InUse, Somewhere, OwnersOk, EntryOk, OneSlot;
    PcFact(s, t);
    if a.Run? {
      TableFact(s, |s.tables| - 1);
      StepOf(s, a.t, a.ok, a.p);
      ThreadHashBound.StepGrows(s, a.t, a.ok, a.p);
    }
    SamePlace(s, Next(s, a), s.threads[t].pc);
  }

  // ----- the lock under which a table is added -----

  predicate Holds(pc: PC) { pc.Grow? || pc.Unlock? || (pc.GiveUp? && pc.locked) || pc.ClearLock? }

  predicate HoldsAt(s: State, t: int) { 0 <= t < |s.threads| && Holds(s.threads[t].pc) }

  ghost predicate LockOk(s: State) {
    && (forall t, u :: HoldsAt(s, t) && HoldsAt(s, u) ==> t == u)
    && (s.resizing <==> exists t :: HoldsAt(s, t))
    && forall t :: 0 <= t < |s.threads| && s.threads[t].pc.Unlock? ==> s.threads[t].pc.n < Capacity(s, s.threads[t].pc.main) / 2
  }

  /** What the step of thread t does to the lock. */
  ghost predicate Locks(s: State, s': State, pc: PC, pc': PC) {
    && (Holds(pc') <==> if Holds(pc) then s'.resizing else !s.resizing && s'.resizing)
    && (!Holds(pc) && s.resizing ==> s'.resizing)
    && (pc'.Unlock? ==> pc.Grow? && pc'.n < Capacity(s', pc'.main) / 2)
    && (TooHigh(s', pc') ==> pc.Check? && s.resizing)
  }

  lemma HolderLocks(s: State, t: nat, ok: bool)
    requires t < |s.threads| && s.threads[t].pc.Grow? && s.resizing && s.tables != [] && s.tables[|s.tables| - 1] != []
    ensures var s' := GrowStep(s, t, s.threads[t].pc.n, ok); |s'.threads| == |s.threads| && Locks(s, s', s.threads[t].pc, s'.threads[t].pc)
  {
  }

  lemma OthersLock(s: State, t: nat, ok: bool, p: nat)
    requires Enabled(s, Action.Run(t, ok, p))
    ensures s.threads[t].pc.Probe? ==>
      var s' := ProbeStep(s, t, s.threads[t].pc.main, s.threads[t].pc.h, s.threads[t].pc.d);
      |s'.threads| == |s.threads| && Locks(s, s', s.threads[t].pc, s'.threads[t].pc)
    ensures s.threads[t].pc.CopyTo? ==>
      var s' := CopyStep(s, t, s.threads[t].pc.main, s.threads[t].pc.d, s.threads[t].pc.value);
      |s'.threads| == |s.threads| && Locks(s, s', s.threads[t].pc, s'.threads[t].pc)
    ensures s.threads[t].pc.Erase? ==>
      var s' := EraseStep(s, t, s.threads[t].pc.h, s.threads[t].pc.d);
      |s'.threads| == |s.threads| && Locks(s, s', s.threads[t].pc, s'.threads[t].pc)
    ensures s.threads[t].pc.Recycle? ==>
      var s' := RecycleStep(s, t, s.threads[t].pc.main, ok, p); |s'.threads| == |s.threads| && Locks(s, s', s.threads[t].pc, s'.threads[t].pc)
    ensures s.threads[t].pc.Retire? ==>
      var s' := RetireStep(s, t); |s'.threads| == |s.threads| && Locks(s, s', s.threads[t].pc, s'.threads[t].pc)
  {
    hide At, Index, Put, Capacity;
  }

  lemma TriesLock(s: State, t: nat)
    requires t < |s.threads| == |s.hash|
    ensures s.threads[t].pc.TryTomb? ==>
      var s' := TombStep(s, t, s.threads[t].pc.main, s.threads[t].pc.d, s.threads[t].pc.p);
      |s'.threads| == |s.threads| && Locks(s, s', s.threads[t].pc, s'.threads[t].pc)
    ensures s.threads[t].pc.TryEmpty? ==>
      var s' := EmptyStep(s, t, s.threads[t].pc.main, s.threads[t].pc.d, s.threads[t].pc.p);
      |s'.threads| == |s.threads| && Locks(s, s', s.threads[t].pc, s'.threads[t].pc)
  {
    hide At, Index, Put, Capacity;
  }

  predicate Direct(pc: PC) { pc.LoadMain? || pc.CountUp? || pc.Check? || pc.Unlock? || pc.Room? || pc.Uncount? || pc.GiveUp? || pc.ClearLock? }

  lemma DirectLocks(s: State, t: nat, ok: bool, p: nat)
    requires Enabled(s, Action.Run(t, ok, p)) && Direct(s.threads[t].pc)
    requires Holds(s.threads[t].pc) ==> s.resizing
    requires s.threads[t].pc.Unlock? ==> s.threads[t].pc.n < Capacity(s, s.threads[t].pc.main) / 2
    ensures var s' := Step(s, t, ok, p); |s'.threads| == |s.threads| && Locks(s, s', s.threads[t].pc, s'.threads[t].pc)
  {
    hide ProbeStep, CopyStep, EraseStep, TombStep, EmptyStep, GrowStep, RecycleStep, RetireStep;
  }

  lemma StepLocks(s: State, t: nat, ok: bool, p: nat)
    requires Enabled(s, Action.Run(t, ok, p)) && s.tables != [] && s.tables[|s.tables| - 1] != []
    requires Holds(s.threads[t].pc) ==> s.resizing
    requires s.threads[t].pc.Unlock? ==> s.threads[t].pc.n < Capacity(s, s.threads[t].pc.main) / 2
    ensures var s' := Step(s, t, ok, p); |s'.threads| == |s.threads| && Locks(s, s', s.threads[t].pc, s'.threads[t].pc)
  {
    hide ProbeStep, CopyStep, EraseStep, TombStep, EmptyStep, GrowStep, RecycleStep, RetireStep, Locks, Capacity;
    if Direct(s.threads[t].pc) {
      DirectLocks(s, t, ok, p);
    } else if s.threads[t].pc.Grow? {
      HolderLocks(s, t, ok);
    } else {
      OthersLock(s, t, ok, p);
      TriesLock(s, t);
    }
  }

  lemma LockKeeps(s: State, a: Action)
    requires Inv(s) && LockOk(s) && Enabled(s, a)
    ensures LockOk(Next(s, a))
  {
    hide Inv, Step, Locks;
    SomeTables(s);
    if a.Run? {
      var s' := Next(s, a);
      var t := a.t;
      if Holds(s.threads[t].pc) { assert HoldsAt(s, t); }
      StepLocks(s, t, a.ok, a.p);
      StepOf(s, t, a.ok, a.p);
      ThreadHashBound.StepGrows(s, t, a.ok, a.p);
      PlacesInRange(s);
      LocksOn(s, s', t);
    } else {
      PlacesInRange(s);
      CallLocks(s, a);
      LocksOn(s, Next(s, a), a.t);
    }
  }

  lemma CallLocks(s: State, a: Action)
    requires Enabled(s, a) && !a.Run?
    ensures var s' := Next(s, a);
      && a.t < |s.threads| == |s'.threads| && s'.tables == s.tables && Locks(s, s', s.threads[a.t].pc, s'.threads[a.t].pc)
      && forall u: nat :: u != a.t && u < |s.threads| ==> s'.threads[u] == s.threads[u]
  {
  }

  lemma SomeTables(s: State)
    requires Inv(s)
    ensures s.tables != [] && s.tables[|s.tables| - 1] != []
  {
    TableFact(s, |s.tables| - 1);
  }

  lemma PlacesInRange(s: State)
    requires Inv(s)
    ensures forall u :: 0 <= u < |s.threads| && s.threads[u].pc.Unlock? ==> s.threads[u].pc.main < |s.tables|
  {
    hide Inv;
    forall u | 0 <= u < |s.threads| && s.threads[u].pc.Unlock? ensures s.threads[u].pc.main < |s.tables| {
      PcFact(s, u);
    }
  }

  lemma LocksOn(s: State, s': State, t: nat)
    requires LockOk(s) && t < |s.threads| == |s'.threads| && Locks(s, s', s.threads[t].pc, s'.threads[t].pc)
    requires forall u: nat :: u != t && u < |s.threads| ==> s'.threads[u].pc == s.threads[u].pc
    requires |s.tables| <= |s'.tables| && forall k :: 0 <= k < |s.tables| ==> |s'.tables[k]| == |s.tables[k]|
    requires forall u :: 0 <= u < |s.threads| && s.threads[u].pc.Unlock? ==> s.threads[u].pc.main < |s.tables|
    ensures LockOk(s')
  {
    hide TooHigh, Holds;
    assert forall u: int :: u != t ==> HoldsAt(s', u) == HoldsAt(s, u);
    assert HoldsAt(s, t) == Holds(s.threads[t].pc) && HoldsAt(s', t) == Holds(s'.threads[t].pc);
    if s.resizing {
      var u :| HoldsAt(s, u);
      assert s'.resizing ==> HoldsAt(s', u);
    }
    assert s'.resizing <==> exists u :: HoldsAt(s', u);
  }

  lemma {:induction false} RunLock(run: seq<State>, i: nat)
    requires IsRun(run) && i < |run|
    ensures LockOk(run[i])
  {
    hide Inv, Enabled, Next;
    if i > 0 {
      RunLock(run, i - 1);
      RunInv(run, i - 1);
      assert Leads(run[i - 1], run[i - 1 + 1]);
      var a :| Moves(run[i - 1], a, run[i]);
      LockKeeps(run[i - 1], a);
    } else {
      StartsUnlocked(run[0]);
    }
  }

  lemma StartsUnlocked(s: State)
    requires Init(s)
    ensures LockOk(s)
  {
  }

  /** A thread whose number is too high for the table it saw found another thread at work on a larger one. */
  lemma WaitsOnlyForALargerTable(s: State, t: nat, ok: bool, p: nat)
    requires Reachable(s) && Enabled(s, Action.Run(t, ok, p)) && t < |Step(s, t, ok, p).threads|
    requires TooHigh(Step(s, t, ok, p), Step(s, t, ok, p).threads[t].pc)
    ensures s.threads[t].pc.Check? && exists u :: u != t && HoldsAt(s, u)
    ensures forall u, v :: HoldsAt(s, u) && HoldsAt(s, v) ==> u == v
  {
    hide Inv, Step, TooHigh, Leads, Init;
    var run :| IsRun(run) && run[|run| - 1] == s;
    RunLock(run, |run| - 1);
    ReachableInv(s);
    SomeTables(s);
    if Holds(s.threads[t].pc) { assert HoldsAt(s, t); }
    StepLocks(s, t, ok, p);
    var u :| HoldsAt(s, u);
    assert u != t;
  }
}
