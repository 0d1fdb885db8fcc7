/** What a call on a sub-queue comes to: an enqueue takes a bounded number of the producer's own steps, and it
    succeeds unless it is refused for one of three reasons. */
module SubQueueCalls {
  import opened Options
  import opened Words
  import opened SubQueues
  import opened SubQueueInvariant
  import opened SubQueueSafety
  import Tickets

  // ----- an enqueue among the steps of all threads -----

  /** The states that the actions go through. */
  ghost predicate IsTrace(states: seq<State>, acts: seq<Action>) {
    && |states| == |acts| + 1 && Reachable(states[0])
    && forall i :: 0 <= i < |acts| ==> Moves(states[i], acts[i], states[i + 1])
  }

  /** From the call to its return. */
  ghost predicate IsEnqueue(states: seq<State>, acts: seq<Action>, v: Item, alloc: bool) {
    && IsTrace(states, acts) && acts != [] && acts[0] == StartEnqueue(v, alloc)
    && (forall i :: 0 < i < |acts| ==> states[i].own.pc != Resting)
    && states[|acts|].own.pc == Resting
  }

  /** The three reasons to give up: no leeway; the index is full and may not or cannot be replaced; no block. */
  predicate Refuses(s: State, a: Action, alloc: bool) {
    a.RunProducer? &&
    match s.own.pc
    case ReadHead(_, _) => s.tk.tail + BLOCK_SIZE - Tickets.Head(s.tk) >= HALF
    case MakeRoom(_, _) => s.own.headers != [] && s.own.slotsUsed == |Last(s.own).entries| && !(alloc && a.ok)
    case Requisition(_, _) => !a.ok
    case _ => false
  }

  ghost predicate Refused(states: seq<State>, acts: seq<Action>, alloc: bool)
    requires |states| == |acts| + 1
  {
    exists i :: 0 <= i < |acts| && Refuses(states[i], acts[i], alloc)
  }

  /** The producer is busy with this call. */
  predicate Carries(pc: ProducerPC, v: Item, alloc: bool) {
    pc != Resting && pc.v == v
    && (pc.CheckEmpty? || pc.ReadHead? || pc.MakeRoom? || pc.Requisition? ==> pc.alloc == alloc)
  }

  lemma BeginCarries(s: State, v: Item, alloc: bool)
    requires Enabled(s, StartEnqueue(v, alloc))
    ensures var s' := Next(s, StartEnqueue(v, alloc)); Carries(s'.own.pc, v, alloc) && s'.log == s.log
  {
  }

  lemma ProducerCarries(s: State, ok: bool, b: nat, v: Item, alloc: bool)
    requires Reachable(s) && Enabled(s, RunProducer(ok, b)) && Carries(s.own.pc, v, alloc)
    ensures var s' := ProducerStep(s, ok, b);
      if s'.own.pc != Resting then Carries(s'.own.pc, v, alloc) && s'.log == s.log && !Refuses(s, RunProducer(ok, b), alloc)
      else s'.log == if Refuses(s, RunProducer(ok, b), alloc) then s.log else s.log + [v]
  {
    hide Reachable, PutCell, ResetEmpty, Copied, Tickets.Next;
    LeewayIsExact(s, v, alloc);
  }

  lemma OthersKeepTheCall(s: State, a: Action)
    requires Enabled(s, a) && !a.RunProducer? && !a.StartEnqueue?
    ensures Next(s, a).own.pc == s.own.pc && Next(s, a).log == s.log
  {
    hide Tickets.Next, PutCell, PutFlag;
  }

  lemma StepCarries(s: State, a: Action, v: Item, alloc: bool)
    requires Reachable(s) && Enabled(s, a) && Carries(s.own.pc, v, alloc)
    ensures var s' := Next(s, a);
      if s'.own.pc != Resting then Carries(s'.own.pc, v, alloc) && s'.log == s.log && !Refuses(s, a, alloc)
      else s'.log == if Refuses(s, a, alloc) then s.log else s.log + [v]
  {
    hide Reachable, ProducerStep, Carries;
    if a.RunProducer? {
      ProducerCarries(s, a.ok, a.b, v, alloc);
    } else {
      NotTwice(s, a, v, alloc);
      OthersKeepTheCall(s, a);
    }
  }

  lemma NotTwice(s: State, a: Action, v: Item, alloc: bool)
    requires Enabled(s, a) && Carries(s.own.pc, v, alloc)
    ensures !a.StartEnqueue? && s.own.pc != Resting
  {
  }

  lemma {:induction false} TraceIsReachable(states: seq<State>, acts: seq<Action>, i: nat)
    requires IsTrace(states, acts) && i <= |acts|
    ensures Reachable(states[i])
  {
    hide Moves, Init;
    if i > 0 {
      TraceIsReachable(states, acts, i - 1);
      var run :| IsRun(run) && run[|run| - 1] == states[i - 1];
      assert Moves(states[i - 1], acts[i - 1], states[i - 1 + 1]);
      assert Leads(states[i - 1], states[i]);
      var longer := run + [states[i]];
      forall k | 0 <= k < |longer| - 1 ensures Leads(longer[k], longer[k + 1]) {
        if k < |run| - 1 { assert Leads(run[k], run[k + 1]); }
      }
      assert IsRun(longer) && longer[|longer| - 1] == states[i];
    }
  }

  lemma {:induction false} CallGoesOn(states: seq<State>, acts: seq<Action>, v: Item, alloc: bool, i: nat)
    requires IsEnqueue(states, acts, v, alloc) && 0 < i <= |acts| && (i < |acts| || i == 1)
    ensures Carries(states[i].own.pc, v, alloc) && states[i].log == states[0].log
    ensures forall k :: 0 <= k < i ==> !Refuses(states[k], acts[k], alloc)
  {
    hide Reachable, Next, Enabled, Carries;
    assert Moves(states[i - 1], acts[i - 1], states[i - 1 + 1]);
    if i == 1 {
      BeginCarries(states[0], v, alloc);
    } else {
      CallGoesOn(states, acts, v, alloc, i - 1);
      TraceIsReachable(states, acts, i - 1);
      StepCarries(states[i - 1], acts[i - 1], v, alloc);
    }
  }

  /** However the steps of the dequeuers fall between, an enqueue appends its element unless it is refused,
      and then it changes nothing that was enqueued. */
  lemma EnqueueSucceedsUnlessRefused(states: seq<State>, acts: seq<Action>, v: Item, alloc: bool)
    requires IsEnqueue(states, acts, v, alloc)
    ensures states[|acts|].log == if Refused(states, acts, alloc) then states[0].log else states[0].log + [v]
  {
    hide Reachable, Next, Enabled, Refuses, Carries;
    var last := |acts| - 1;
    assert Moves(states[last], acts[last], states[last + 1]);
    CallGoesOn(states, acts, v, alloc, if last > 0 then last else 1);
    if last == 0 { CarriesIsBusy(states[1].own.pc, v, alloc); }
    TraceIsReachable(states, acts, last);
    StepCarries(states[last], acts[last], v, alloc);
  }

  lemma CarriesIsBusy(pc: ProducerPC, v: Item, alloc: bool)
    requires Carries(pc, v, alloc)
    ensures pc != Resting
  {
  }

  // ----- it is wait-free -----

  /** Steps of the producer until the call returns, at most. */
  function StepsLeft(pc: ProducerPC): nat {
    match pc
    case Resting => 0
    case CheckEmpty(_, _, i) => if i < BLOCK_SIZE then BLOCK_SIZE - i + 7 else 8
    case ReadHead(_, _) => 7
    case MakeRoom(_, _) => 6
    case Requisition(_, _) => 5
    case WriteEntry(_) => 4
    case StoreFront(_) => 3
    case Construct(_) => 2
    case StoreTail(_) => 1
  }

  lemma StepsFall(s: State, a: Action)
    requires Enabled(s, a)
    ensures a.RunProducer? ==> StepsLeft(Next(s, a).own.pc) < StepsLeft(s.own.pc)
    ensures !a.RunProducer? && !a.StartEnqueue? ==> Next(s, a).own.pc == s.own.pc
  {
    hide Tickets.Next, PutCell, PutFlag, ResetEmpty, Copied;
  }

  /** The producer can always take its next step, whatever the dequeuers are doing. */
  lemma ProducerIsNeverStuck(s: State)
    requires Reachable(s) && s.own.pc != Resting
    ensures Enabled(s, RunProducer(false, 0))
  {
    hide Reachable;
    ReachableInv(s);
    hide Tickets.Inv, MemOk, FreeOk, SeenOk, CellsOk, LiveOk, RingOk, HeadersOk, CurrentOk, TailOk;
  }

  function OwnSteps(acts: seq<Action>): nat {
    if acts == [] then 0 else OwnSteps(acts[..|acts| - 1]) + if acts[|acts| - 1].RunProducer? then 1 else 0
  }

  /** A call takes no more of the producer's own steps than one for each flag of a block and seven. */
  lemma {:induction false} EnqueueIsShort(states: seq<State>, acts: seq<Action>, v: Item, alloc: bool, i: nat)
    requires IsTrace(states, acts) && acts != [] && acts[0] == StartEnqueue(v, alloc) && 0 < i <= |acts|
    requires forall k :: 0 < k < i ==> states[k].own.pc != Resting
    ensures OwnSteps(acts[..i]) + StepsLeft(states[i].own.pc) <= BLOCK_SIZE + 7
  {
    hide Reachable, Next, Enabled;
    assert Moves(states[i - 1], acts[i - 1], states[i - 1 + 1]);
    assert acts[..i][..i - 1] == acts[..i - 1];
    if i == 1 {
      assert acts[..0] == [];
      BeginIsShort(states[0], v, alloc);
    } else {
      EnqueueIsShort(states, acts, v, alloc, i - 1);
      StepsFall(states[i - 1], acts[i - 1]);
      OnlyAtRest(states[i - 1], acts[i - 1]);
    }
  }

  lemma OnlyAtRest(s: State, a: Action)
    requires Enabled(s, a) && s.own.pc != Resting
    ensures !a.StartEnqueue?
  {
  }

  lemma BeginIsShort(s: State, v: Item, alloc: bool)
    requires Enabled(s, StartEnqueue(v, alloc))
    ensures StepsLeft(Next(s, StartEnqueue(v, alloc)).own.pc) <= BLOCK_SIZE + 7
  {
  }

  // ----- an enqueue on its own -----

  /** Block b is free, and one more leaves the sub-queue short of half a turn. */
  predicate Provided(s: State, b: nat) {
    b < |s.own.next| && b !in s.assign && (s.own.slotsUsed + 1) * BLOCK_SIZE < HALF
  }

  function Ahead(p: Producer): nat { NextOf(p, p.tailBlock.GetOr(0)) }

  /** The flags of block b are up from the i-th on. */
  predicate UpFrom(m: Memory, b: nat, i: nat) { forall j :: i <= j < BLOCK_SIZE ==> FlagAt(m, b, j) }

  /** There is leeway, memory, and room in the index or leave to replace it. */
  predicate Roomy(s: State, alloc: bool, ok: bool) {
    s.tk.tail + BLOCK_SIZE - Tickets.Head(s.tk) < HALF && ok && IndexHasRoom(s, alloc)
  }

  predicate IndexHasRoom(s: State, alloc: bool) { s.own.headers != [] && s.own.slotsUsed == |Last(s.own).entries| ==> alloc }

  /** What is left of the call will succeed. */
  predicate Will(s: State, ok: bool) {
    match s.own.pc
    case Resting => false
    case CheckEmpty(_, alloc, i) => UpFrom(s.mem, Ahead(s.own), i) || Roomy(s, alloc, ok)
    case ReadHead(_, alloc) => Roomy(s, alloc, ok)
    case MakeRoom(_, alloc) => ok && IndexHasRoom(s, alloc)
    case Requisition(_, _) => ok
    case _ => true
  }

  /** If the call may come to take a block, block b is free. */
  predicate Supplied(s: State, ok: bool, b: nat) {
    ok && (s.own.pc.CheckEmpty? || s.own.pc.ReadHead? || s.own.pc.MakeRoom? || s.own.pc.Requisition?) ==> Provided(s, b)
  }

  lemma OneMoreUp(m: Memory, b: nat, i: nat)
    requires i < BLOCK_SIZE
    ensures UpFrom(m, b, i) == (FlagAt(m, b, i) && UpFrom(m, b, i + 1)) && UpFrom(m, b, BLOCK_SIZE)
  {
  }

  lemma CheckGoesOn(s: State, ok: bool, b: nat)
    requires s.own.headers != [] && s.own.pc.CheckEmpty? && s.own.pc.i < BLOCK_SIZE
    ensures var s' := ProducerStep(s, ok, b);
      && s'.own.pc != Resting && Will(s', ok) == Will(s, ok) && s'.log == s.log && s'.own.pc.v == s.own.pc.v
      && (Supplied(s, ok, b) ==> Supplied(s', ok, b))
  {
    hide ResetEmpty, FlagAt, UpFrom;
    OneMoreUp(s.mem, Ahead(s.own), s.own.pc.i);
  }

  lemma RoomGoesOn(s: State, ok: bool, b: nat)
    requires s.own.headers != [] && (s.own.pc.ReadHead? || s.own.pc.MakeRoom? || s.own.pc.Requisition?)
    requires s.own.pc.ReadHead? ==> (LeewayFor(s, s.own.pc.v, s.own.pc.alloc).MakeRoom? <==> s.tk.tail + BLOCK_SIZE - Tickets.Head(s.tk) < HALF)
    ensures var s' := ProducerStep(s, ok, b);
      && (s'.own.pc != Resting ==> Will(s', ok) == Will(s, ok) && s'.log == s.log && s'.own.pc.v == s.own.pc.v)
      && (s'.own.pc == Resting ==> !Will(s, ok) && s'.log == s.log)
      && (Supplied(s, ok, b) ==> Supplied(s', ok, b))
  {
    hide UpFrom, Copied, ResetEmpty, CircularLess;
  }

  lemma RestGoesOn(s: State, ok: bool, b: nat)
    requires s.own.headers != [] && (s.own.pc.WriteEntry? || s.own.pc.StoreFront? || s.own.pc.Construct? || s.own.pc.StoreTail?)
    ensures var s' := ProducerStep(s, ok, b);
      && Will(s, ok)
      && (s'.own.pc != Resting ==> Will(s', ok) && s'.log == s.log && s'.own.pc.v == s.own.pc.v && Supplied(s', ok, b))
      && (s'.own.pc == Resting ==> s'.log == s.log + [s.own.pc.v])
  {
    hide UpFrom, PutCell, Tickets.Next;
  }

  lemma OwnStep(s: State, ok: bool, b: nat)
    requires Reachable(s) && s.own.pc != Resting && Enabled(s, RunProducer(ok, b))
    ensures var s' := ProducerStep(s, ok, b);
      && (s'.own.pc != Resting ==> Will(s', ok) == Will(s, ok) && s'.log == s.log && s'.own.pc.v == s.own.pc.v)
      && (s'.own.pc == Resting ==> s'.log == if Will(s, ok) then s.log + [s.own.pc.v] else s.log)
      && (s'.own.pc != Resting && Supplied(s, ok, b) ==> Supplied(s', ok, b))
  {
    hide Reachable, ProducerStep, Supplied, Inv, LeewayFor, Will;
    if s.own.pc.CheckEmpty? {
      ReachableInv(s);
      SeenSoFar(s);
      CheckGoesOn(s, ok, b);
    } else if s.own.pc.ReadHead? || s.own.pc.MakeRoom? || s.own.pc.Requisition? {
      if s.own.pc.ReadHead? { LeewayIsExact(s, s.own.pc.v, s.own.pc.alloc); }
      RoomGoesOn(s, ok, b);
    } else {
      RestGoesOn(s, ok, b);
    }
  }

  lemma SeenSoFar(s: State)
    requires Inv(s)
    ensures s.own.pc.CheckEmpty? ==> s.own.pc.i < BLOCK_SIZE
  {
    hide Tickets.Inv, MemOk, FreeOk, SeenOk, CellsOk, LiveOk, RingOk, HeadersOk, CurrentOk, ThreadsOk;
  }

  lemma StepStaysReachable(s: State, a: Action)
    requires Reachable(s) && Enabled(s, a) && Steady(s, a)
    ensures Reachable(Next(s, a)) && Moves(s, a, Next(s, a))
  {
    hide Reachable, Next, Enabled;
    TraceIsReachable([s, Next(s, a)], [a], 1);
  }

  /** The rest of a call, if nobody else runs and memory is there for all its steps or for none. */
  lemma {:induction false} OwnRun(s: State, ok: bool, b: nat) returns (states: seq<State>, acts: seq<Action>)
    requires Reachable(s) && (s.own.pc != Resting ==> Supplied(s, ok, b))
    ensures IsTrace(states, acts) && states[0] == s && states[|acts|].own.pc == Resting
    ensures forall i :: 0 <= i < |acts| ==> acts[i] == RunProducer(ok, b) && states[i].own.pc != Resting
    ensures s.own.pc != Resting ==> states[|acts|].log == if Will(s, ok) then s.log + [s.own.pc.v] else s.log
    decreases StepsLeft(s.own.pc)
  {
    hide Reachable, Moves, Enabled, Next, Will, Supplied;
    if s.own.pc == Resting {
      states, acts := [s], [];
    } else {
      var a := RunProducer(ok, b);
      CanStep(s, ok, b);
      StepStaysReachable(s, a);
      OwnStep(s, ok, b);
      StepsFall(s, a);
      NextIsStep(s, ok, b);
      var rest, more := OwnRun(Next(s, a), ok, b);
      states, acts := [s] + rest, [a] + more;
      forall i | 0 <= i < |acts| ensures Moves(states[i], acts[i], states[i + 1]) {
        if i > 0 { assert Moves(rest[i - 1], more[i - 1], rest[i - 1 + 1]); }
      }
      forall i | 0 <= i < |acts| ensures acts[i] == a && states[i].own.pc != Resting {
        if i > 0 { assert more[i - 1] == a && rest[i - 1].own.pc != Resting; }
      }
    }
  }

  lemma CanStep(s: State, ok: bool, b: nat)
    requires Reachable(s) && s.own.pc != Resting && Supplied(s, ok, b)
    ensures Enabled(s, RunProducer(ok, b)) && Steady(s, RunProducer(ok, b))
  {
    hide Reachable;
    ProducerIsNeverStuck(s);
  }

  lemma NextIsStep(s: State, ok: bool, b: nat)
    requires Enabled(s, RunProducer(ok, b))
    ensures s.own.headers != [] && s.own.pc != Resting && Next(s, RunProducer(ok, b)) == ProducerStep(s, ok, b)
  {
  }

  /** What decides, before the call: there is room in the present block, or the block ahead has been read to
      the end, or there is leeway, memory, and room in the index or leave to replace it. */
  predicate Accepts(s: State, alloc: bool, ok: bool) {
    || s.tk.tail % BLOCK_SIZE != 0
    || (s.own.tailBlock.Some? && UpFrom(s.mem, Ahead(s.own), 0))
    || Roomy(s, alloc, ok)
  }

  lemma AcceptsBegins(s: State, v: Item, alloc: bool, ok: bool, b: nat)
    requires Enabled(s, StartEnqueue(v, alloc)) && (ok ==> Provided(s, b))
    ensures var s' := Next(s, StartEnqueue(v, alloc));
      Will(s', ok) == Accepts(s, alloc, ok) && Supplied(s', ok, b) && s'.own.pc != Resting && s'.own.pc.v == v && s'.log == s.log
  {
    hide UpFrom;
  }

  lemma CallIsEnabled(s: State, v: Item, alloc: bool)
    requires Reachable(s) && s.own.pc == Resting
    ensures Enabled(s, StartEnqueue(v, alloc)) && Steady(s, StartEnqueue(v, alloc))
  {
    hide Reachable;
    ReachableInv(s);
    hide Tickets.Inv, MemOk, FreeOk, SeenOk, CellsOk, LiveOk, RingOk, HeadersOk, CurrentOk, TailOk;
  }

  /** From every state in which the producer rests, an enqueue that runs on its own comes to an end, and has
      appended its element if and only if the state before it accepts one. */
  lemma EnqueueAlone(s: State, v: Item, alloc: bool, ok: bool, b: nat) returns (states: seq<State>, acts: seq<Action>)
    requires Reachable(s) && s.own.pc == Resting && (ok ==> Provided(s, b))
    ensures IsEnqueue(states, acts, v, alloc) && states[0] == s
    ensures forall i :: 0 < i < |acts| ==> acts[i] == RunProducer(ok, b)
    ensures states[|acts|].log == if Accepts(s, alloc, ok) then s.log + [v] else s.log
  {
    hide Reachable, Moves, Enabled, Next, Will, Supplied, Accepts, Provided;
    var a := StartEnqueue(v, alloc);
    CallIsEnabled(s, v, alloc);
    StepStaysReachable(s, a);
    AcceptsBegins(s, v, alloc, ok, b);
    var rest, more := OwnRun(Next(s, a), ok, b);
    states, acts := [s] + rest, [a] + more;
    forall i | 0 <= i < |acts| ensures Moves(states[i], acts[i], states[i + 1]) {
      if i > 0 { assert Moves(rest[i - 1], more[i - 1], rest[i - 1 + 1]); }
    }
    forall i | 0 < i < |acts| ensures acts[i] == RunProducer(ok, b) && states[i].own.pc != Resting {
      assert more[i - 1] == RunProducer(ok, b) && rest[i - 1].own.pc != Resting;
    }
  }
}
