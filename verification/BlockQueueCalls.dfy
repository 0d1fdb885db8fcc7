/** What the calls of a blocking queue come to, each of the three ways in and the two ways out: what it puts
    in, what it takes or drives out, and what it discards. */
module BlockQueueCalls {
  import opened BlockQueues
  import opened CircularQueues

  // ----- what the steps of one thread do -----

  /** The states that the actions go through. */
  ghost predicate IsTrace(states: seq<State>, acts: seq<Action>) {
    && |states| == |acts| + 1 && Reachable(states[0])
    && forall i :: 0 <= i < |acts| ==> Moves(states[i], acts[i], states[i + 1])
  }

  /** What came in, and what went out. */
  function Put(s: State, s': State): seq<Item> { if |s.accepted| <= |s'.accepted| then s'.accepted[|s.accepted|..] else [] }
  function Gone(s: State, s': State): seq<Item> { if |s.removed| <= |s'.removed| then s'.removed[|s.removed|..] else [] }

  predicate Own(a: Action, t: nat) { a.Run? && a.t == t }

  /** What thread t has done with its steps among the first n: the items put in and gone, the items counted as
      discarded, and whether the queue was full at the first of them. */
  datatype Deeds = Deeds(put: seq<Item>, gone: seq<Item>, discards: int, steps: nat, full: bool)

  function Add(d: Deeds, s: State, s': State): Deeds {
    Deeds(d.put + Put(s, s'), d.gone + Gone(s, s'), d.discards + s'.discarded - s.discarded, d.steps + 1,
          if d.steps == 0 then Full(s) else d.full)
  }

  function DeedsOf(states: seq<State>, acts: seq<Action>, t: nat, n: nat): Deeds
    requires n <= |acts| < |states|
  {
    if n == 0 then Deeds([], [], 0, 0, false)
    else
      var d := DeedsOf(states, acts, t, n - 1);
      if Own(acts[n - 1], t) then Add(d, states[n - 1], states[n]) else d
  }

  // ----- a call -----

  predicate AtEnd(s: State, t: nat) { t < |s.pc| && s.pc[t] == Out }

  /** From the call to its return. */
  ghost predicate IsCallOf(states: seq<State>, acts: seq<Action>, t: nat, p: PC) {
    && IsTrace(states, acts) && acts != [] && acts[0] == Start(t, p)
    && (forall i :: 0 < i < |acts| ==> !AtEnd(states[i], t))
    && AtEnd(states[|acts|], t)
  }

  /** enqueue puts its item in, and nothing is lost for it. */
  predicate Enqueues(pc: PC, x: Item, d: Deeds) {
    && d.gone == [] && d.discards == 0
    && if pc == NotifyPush || pc == Out then d.put == [x]
       else d.put == [] && (pc == Entering(x) || pc == AwaitingRoom(x) || pc == Woken(x))
  }

  /** enqueue_if_have_room puts it in, or counts it as discarded if the queue is full. */
  predicate Tries(pc: PC, x: Item, d: Deeds) {
    && d.gone == []
    && if pc == Trying(x) then d == Deeds([], [], 0, 0, false)
       else d.steps > 0 && if d.full then d.put == [] && ((pc == Discarding && d.discards == 0) || (pc == Out && d.discards == 1))
                           else d.put == [x] && d.discards == 0 && (pc == NotifyPush || pc == Out)
  }

  /** enqueue_nowait puts it in, and drives one item out if the queue is full. */
  predicate Forces(pc: PC, x: Item, d: Deeds) {
    && d.discards == 0
    && if pc == Forcing(x) then d == Deeds([], [], 0, 0, false)
       else d.steps > 0 && d.put == [x] && |d.gone| == (if d.full then 1 else 0) && (pc == NotifyPush || pc == Out)
  }

  /** dequeue takes one item; dequeue_for may return without. */
  predicate Dequeues(pc: PC, timed: bool, d: Deeds) {
    && d.put == [] && d.discards == 0
    && if pc == NotifyPop then |d.gone| == 1
       else if pc == Out then |d.gone| == 1 || (timed && d.gone == [])
       else d.gone == [] && (pc == Leaving(timed) || pc == AwaitingItem(timed) || pc == Roused(timed) || (timed && pc == Expired))
  }

  predicate Does(pc: PC, p: PC, d: Deeds) {
    match p
    case Entering(x) => Enqueues(pc, x, d)
    case Trying(x) => Tries(pc, x, d)
    case Forcing(x) => Forces(pc, x, d)
    case Leaving(timed) => Dequeues(pc, timed, d)
    case _ => false
  }

  /** A push: one item comes in, and one goes out if there is no room. */
  lemma PushDoes(s: State, t: nat, x: Item)
    requires Inv(s) && t < |s.pc|
    ensures var s' := PushItem(s, t, x);
      && Put(s, s') == [x] && |Gone(s, s')| == (if Full(s) then 1 else 0) && s'.discarded == s.discarded && s'.pc == s.pc[t := NotifyPush]
  {
    hide LastOf;
    PushAccounts(s, t, x);
    PushSplits(s.items, x, s.capacity);
  }

  predicate AboutToPut(pc: PC) { pc.Entering? || pc.Woken? || pc.Trying? || pc.Forcing? }

  lemma PutStepDoes(s: State, t: nat, other: nat, p: PC, d: Deeds)
    requires Inv(s) && Enabled(s, Run(t, other)) && Does(s.pc[t], p, d) && AboutToPut(s.pc[t])
    ensures var s' := Step(s, t, other); t < |s'.pc| && Does(s'.pc[t], p, Add(d, s, s'))
  {
    hide Inv, PushItem, TakeItem;
    PushDoes(s, t, s.pc[t].x);
  }

  lemma OtherOwnStepDoes(s: State, t: nat, other: nat, p: PC, d: Deeds)
    requires Enabled(s, Run(t, other)) && Does(s.pc[t], p, d) && !AboutToPut(s.pc[t])
    ensures var s' := Step(s, t, other); t < |s'.pc| && Does(s'.pc[t], p, Add(d, s, s'))
  {
    hide PushItem;
  }

  lemma OwnStepDoes(s: State, t: nat, other: nat, p: PC, d: Deeds)
    requires Inv(s) && Enabled(s, Run(t, other)) && Does(s.pc[t], p, d)
    ensures var s' := Step(s, t, other); t < |s'.pc| && Does(s'.pc[t], p, Add(d, s, s'))
  {
    hide Inv, Step, Does, Add;
    if AboutToPut(s.pc[t]) { PutStepDoes(s, t, other, p, d); } else { OtherOwnStepDoes(s, t, other, p, d); }
  }

  lemma OtherStepDoes(s: State, a: Action, t: nat, p: PC, d: Deeds)
    requires Enabled(s, a) && !Own(a, t) && t < |s.pc| && s.pc[t] != Out && Does(s.pc[t], p, d)
    ensures var s' := Next(s, a); t < |s'.pc| && s'.pc[t] != Out && Does(s'.pc[t], p, d)
  {
    hide PushItem;
    if a.Run? { OthersWake(s, a.t, a.other, t); }
  }

  lemma OthersWake(s: State, u: nat, other: nat, t: nat)
    requires Enabled(s, Run(u, other)) && t < |s.pc| && t != u
    ensures var s' := Step(s, u, other);
      && |s'.pc| == |s.pc|
      && (s'.pc[t] == s.pc[t] || (s.pc[t].AwaitingItem? && s'.pc[t] == Roused(s.pc[t].timed)) || (s.pc[t].AwaitingRoom? && s'.pc[t] == Woken(s.pc[t].x)))
  {
    hide LastOf;
  }

  lemma CallBegins(s: State, t: nat, p: PC)
    requires Enabled(s, Start(t, p))
    ensures var s' := Next(s, Start(t, p)); t < |s'.pc| && s'.pc[t] != Out && Does(s'.pc[t], p, Deeds([], [], 0, 0, false))
  {
  }

  lemma {:induction false} TraceInv(states: seq<State>, acts: seq<Action>, i: nat)
    requires IsTrace(states, acts) && i <= |acts|
    ensures Inv(states[i])
  {
    hide Inv, Reachable, Enabled, Next;
    if i == 0 {
      ReachableInv(states[0]);
    } else {
      TraceInv(states, acts, i - 1);
      assert Moves(states[i - 1], acts[i - 1], states[i - 1 + 1]);
      NextInv(states[i - 1], acts[i - 1]);
    }
  }

  lemma {:induction false} CallGoesOn(states: seq<State>, acts: seq<Action>, t: nat, p: PC, i: nat)
    requires IsTrace(states, acts) && acts != [] && acts[0] == Start(t, p) && 0 < i <= |acts|
    requires forall k :: 0 < k < i ==> !AtEnd(states[k], t)
    ensures t < |states[i].pc| && Does(states[i].pc[t], p, DeedsOf(states, acts, t, i))
    ensures i == 1 || !Own(acts[i - 1], t) ==> states[i].pc[t] != Out
  {
    hide Inv, Reachable, Next, Step, Enabled, Does, Add;
    assert Moves(states[i - 1], acts[i - 1], states[i - 1 + 1]);
    var s, a := states[i - 1], acts[i - 1];
    if i == 1 {
      assert DeedsOf(states, acts, t, 0) == Deeds([], [], 0, 0, false);
      CallBegins(s, t, p);
    } else {
      CallGoesOn(states, acts, t, p, i - 1);
      TraceInv(states, acts, i - 1);
      if Own(a, t) { OwnStep(s, a, t, p, DeedsOf(states, acts, t, i - 1)); } else { OtherStepDoes(s, a, t, p, DeedsOf(states, acts, t, i - 1)); }
    }
  }

  lemma OwnStep(s: State, a: Action, t: nat, p: PC, d: Deeds)
    requires Inv(s) && Enabled(s, a) && Own(a, t) && Does(s.pc[t], p, d)
    ensures var s' := Next(s, a); t < |s'.pc| && Does(s'.pc[t], p, Add(d, s, s'))
  {
    hide Inv, Step, Does, Add;
    OwnStepDoes(s, t, a.other, p, d);
  }

  lemma NothingThere(s: State, a: Action, t: nat, p: PC, d: Deeds)
    requires Enabled(s, a) && Own(a, t) && Does(s.pc[t], p, d) && p.Leaving?
    ensures var s' := Next(s, a); t < |s'.pc| && (s'.pc[t] == Out && Add(d, s, s').gone == [] ==> s.items == [])
  {
  }

  /** However the calls of other threads fall between: enqueue puts its item in and drives none out;
      enqueue_if_have_room puts it in if it finds room, and counts it as discarded if not; enqueue_nowait
      puts it in always, and drives one out exactly if there is no room; dequeue takes one item, and
      dequeue_for returns without only if there is none. */
  lemma EachCallDoesItsPart(states: seq<State>, acts: seq<Action>, t: nat, p: PC)
    requires IsCallOf(states, acts, t, p)
    ensures var d := DeedsOf(states, acts, t, |acts|);
      match p
      case Entering(x) => d.put == [x] && d.gone == [] && d.discards == 0
      case Trying(x) => d.put == (if d.full then [] else [x]) && d.gone == [] && d.discards == if d.full then 1 else 0
      case Forcing(x) => d.put == [x] && |d.gone| == (if d.full then 1 else 0) && d.discards == 0
      case Leaving(timed) =>
        d.put == [] && d.discards == 0 && (|d.gone| == 1 || (timed && d.gone == [] && states[|acts| - 1].items == []))
      case _ => false
  {
    hide Inv, Reachable, Next, Step, Enabled, Add;
    var n := |acts|;
    CallGoesOn(states, acts, t, p, n);
    if p.Leaving? && n > 1 {
      CallGoesOn(states, acts, t, p, n - 1);
      assert Moves(states[n - 1], acts[n - 1], states[n - 1 + 1]);
      NothingThere(states[n - 1], acts[n - 1], t, p, DeedsOf(states, acts, t, n - 1));
    }
  }

  lemma PutsIfRoom(s: State, a: Action, t: nat, x: Item, d: Deeds)
    requires Inv(s) && Enabled(s, a) && Own(a, t) && Enqueues(s.pc[t], x, d) && d.put == []
    ensures Put(s, Next(s, a)) == if Full(s) then [] else [x]
  {
    hide Inv, PushItem;
    PushDoes(s, t, s.pc[t].x);
  }

  /** While its item is not in, each step of an enqueue puts it in exactly if there is room. */
  lemma EnqueuePutsExactlyIfRoom(states: seq<State>, acts: seq<Action>, t: nat, x: Item, n: nat)
    requires IsTrace(states, acts) && 0 < n < |acts| && acts[0] == Start(t, Entering(x)) && Own(acts[n], t)
    requires (forall k :: 0 < k <= n ==> !AtEnd(states[k], t)) && DeedsOf(states, acts, t, n).put == []
    ensures Put(states[n], states[n + 1]) == if Full(states[n]) then [] else [x]
  {
    hide Inv, Reachable, Next, Step, Enabled, Enqueues, Add;
    CallGoesOn(states, acts, t, Entering(x), n);
    TraceInv(states, acts, n);
    assert Moves(states[n], acts[n], states[n + 1]);
    PutsIfRoom(states[n], acts[n], t, x, DeedsOf(states, acts, t, n));
  }

  // ----- all calls of a run -----

  ghost predicate IsHistory(states: seq<State>, acts: seq<Action>) {
    && |states| == |acts| + 1 && Init(states[0])
    && forall i :: 0 <= i < |acts| ==> Moves(states[i], acts[i], states[i + 1])
  }

  /** What thread t called last. */
  function Called(acts: seq<Action>, t: nat, n: nat): PC
    requires n <= |acts|
  {
    if n == 0 then Out
    else if acts[n - 1].Start? && acts[n - 1].t == t then acts[n - 1].p
    else Called(acts, t, n - 1)
  }

  /** The items that the calls of enqueue_nowait have driven out, and those that the dequeues have taken. */
  function DrivenOut(states: seq<State>, acts: seq<Action>, n: nat): seq<Item>
    requires n <= |acts| < |states|
  {
    if n == 0 then []
    else
      var a := acts[n - 1];
      DrivenOut(states, acts, n - 1) + if a.Run? && Called(acts, a.t, n - 1).Forcing? then Gone(states[n - 1], states[n]) else []
  }

  function TakenOut(states: seq<State>, acts: seq<Action>, n: nat): seq<Item>
    requires n <= |acts| < |states|
  {
    if n == 0 then []
    else
      var a := acts[n - 1];
      TakenOut(states, acts, n - 1) + if a.Run? && Called(acts, a.t, n - 1).Leaving? then Gone(states[n - 1], states[n]) else []
  }

  ghost predicate Suits(pc: PC, p: PC) { exists d: Deeds :: Does(pc, p, d) }

  ghost predicate AllSuit(s: State, acts: seq<Action>, n: nat)
    requires n <= |acts|
  {
    forall t: nat :: t < |s.pc| && s.pc[t] != Out ==> Suits(s.pc[t], Called(acts, t, n))
  }

  lemma StepSuits(s: State, acts: seq<Action>, n: nat)
    requires n < |acts| && Inv(s) && AllSuit(s, acts, n) && Enabled(s, acts[n])
    ensures AllSuit(Next(s, acts[n]), acts, n + 1)
  {
    hide Inv, Step, Does, Add, Suits;
    var a, s' := acts[n], Next(s, acts[n]);
    forall t: nat | t < |s'.pc| && s'.pc[t] != Out ensures Suits(s'.pc[t], Called(acts, t, n + 1)) {
      StepSuitsOne(s, acts, n, t);
    }
  }

  lemma StepSuitsOne(s: State, acts: seq<Action>, n: nat, t: nat)
    requires n < |acts| && Inv(s) && Enabled(s, acts[n]) && t < |Next(s, acts[n]).pc| && Next(s, acts[n]).pc[t] != Out
    requires t < |s.pc| && s.pc[t] != Out ==> Suits(s.pc[t], Called(acts, t, n))
    ensures Suits(Next(s, acts[n]).pc[t], Called(acts, t, n + 1))
  {
    hide Inv, Step, Does, Add;
    var a := acts[n];
    StillOut(s, a, t);
    if a.Start? && a.t == t {
      CallBegins(s, t, a.p);
    } else {
      var d: Deeds :| Does(s.pc[t], Called(acts, t, n), d);
      if Own(a, t) { OwnStep(s, a, t, Called(acts, t, n), d); } else { OtherStepDoes(s, a, t, Called(acts, t, n), d); }
    }
  }

  lemma StillOut(s: State, a: Action, t: nat)
    requires Enabled(s, a) && t < |Next(s, a).pc| && Next(s, a).pc[t] != Out
    ensures t < |s.pc| && (s.pc[t] != Out || (a.Start? && a.t == t))
  {
    hide LastOf;
  }

  /** One step: what goes is driven out by an enqueue_nowait or taken by a dequeue. */
  lemma StepSorts(s: State, a: Action, p: PC)
    requires Inv(s) && Enabled(s, a) && (a.Run? ==> Suits(s.pc[a.t], p))
    ensures var s' := Next(s, a); var gone := Gone(s, s');
      && s'.removed == s.removed + gone
      && s'.overridden == s.overridden + (if a.Run? && p.Forcing? then |gone| else 0)
      && s'.taken == s.taken + (if a.Run? && p.Leaving? then |gone| else 0)
      && (gone != [] ==> a.Run? && (p.Forcing? || p.Leaving?))
      && (a.Run? && p.Forcing? ==> |gone| == if Put(s, s') != [] && Full(s) then 1 else 0)
  {
    hide Inv, PushItem;
    if a.Run? && AboutToPut(s.pc[a.t]) {
      PushSorts(s, a.t, s.pc[a.t].x);
      PushDoes(s, a.t, s.pc[a.t].x);
    }
  }

  lemma PushSorts(s: State, t: nat, x: Item)
    requires Inv(s) && t < |s.pc|
    ensures var s' := PushItem(s, t, x);
      && s'.removed == s.removed + Gone(s, s') && |Gone(s, s')| == (if Full(s) then 1 else 0)
      && s'.overridden == s.overridden + |Gone(s, s')| && s'.taken == s.taken
  {
    hide LastOf;
    PushAccounts(s, t, x);
    PushDoes(s, t, x);
  }

  /** Pushes of enqueue_nowait into a full queue. */
  function ForcedIntoFull(states: seq<State>, acts: seq<Action>, n: nat): nat
    requires n <= |acts| < |states|
  {
    if n == 0 then 0
    else
      var a, s := acts[n - 1], states[n - 1];
      ForcedIntoFull(states, acts, n - 1)
      + if a.Run? && Called(acts, a.t, n - 1).Forcing? && Put(s, states[n]) != [] && Full(s) then 1 else 0
  }

  lemma {:induction false} HistoryInv(states: seq<State>, acts: seq<Action>, n: nat)
    requires IsHistory(states, acts) && n <= |acts|
    ensures Inv(states[n]) && AllSuit(states[n], acts, n)
  {
    hide Inv, Next, Enabled, AllSuit;
    if n == 0 {
      InitInv(states[0]);
      assert AllSuit(states[0], acts, 0) by { NobodyInACall(states[0], acts); }
    } else {
      HistoryInv(states, acts, n - 1);
      assert Moves(states[n - 1], acts[n - 1], states[n - 1 + 1]);
      NextInv(states[n - 1], acts[n - 1]);
      StepSuits(states[n - 1], acts, n - 1);
    }
  }

  lemma NobodyInACall(s: State, acts: seq<Action>)
    requires Init(s)
    ensures AllSuit(s, acts, 0)
  {
  }

  lemma LastStepSorts(states: seq<State>, acts: seq<Action>, n: nat)
    requires IsHistory(states, acts) && n < |acts|
    ensures var a, s, s' := acts[n], states[n], states[n + 1]; var gone := Gone(s, s');
      && s'.removed == s.removed + gone
      && (!a.Run? ==> s'.overridden == s.overridden && s'.taken == s.taken && gone == [])
      && (a.Run? ==>
            var p := Called(acts, a.t, n);
            && s'.overridden == s.overridden + (if p.Forcing? then |gone| else 0)
            && s'.taken == s.taken + (if p.Leaving? then |gone| else 0)
            && (gone != [] ==> p.Forcing? || p.Leaving?)
            && (p.Forcing? ==> |gone| == if Put(s, s') != [] && Full(s) then 1 else 0))
  {
    hide Inv, Next, Init, Suits, Put, Gone, Full;
    HistoryInv(states, acts, n);
    assert Moves(states[n], acts[n], states[n + 1]);
    var a := acts[n];
    if a.Run? { RunnerIsThere(states[n], a); }
    StepSorts(states[n], a, if a.Run? then Called(acts, a.t, n) else Out);
  }

  lemma RunnerIsThere(s: State, a: Action)
    requires Enabled(s, a) && a.Run?
    ensures a.t < |s.pc| && s.pc[a.t] != Out
  {
  }

  /** What was driven out was driven out by enqueue_nowait, one item for each of its pushes into a full queue;
      all else that left was taken by the dequeues, and the two counts of the queue say so. */
  lemma {:induction false} WhatLeftWasTakenOrForcedOut(states: seq<State>, acts: seq<Action>, n: nat)
    requires IsHistory(states, acts) && n <= |acts|
    ensures states[n].overridden == |DrivenOut(states, acts, n)| == ForcedIntoFull(states, acts, n)
    ensures states[n].taken == |TakenOut(states, acts, n)|
    ensures DrivenOut(states, acts, n) == [] ==> states[n].removed == TakenOut(states, acts, n)
  {
    hide Moves, Gone, Put, Full, Called;
    if n > 0 {
      WhatLeftWasTakenOrForcedOut(states, acts, n - 1);
      LastStepSorts(states, acts, n - 1);
    }
  }

  /** So a queue that nobody forces an item into loses none: all that left it was taken, in order. */
  lemma NothingIsLostUnlessForced(states: seq<State>, acts: seq<Action>)
    requires IsHistory(states, acts) && forall i :: 0 <= i < |acts| && acts[i].Start? ==> !acts[i].p.Forcing?
    ensures var s := states[|acts|];
      && s.overridden == 0 && s.removed == TakenOut(states, acts, |acts|)
      && TakenOut(states, acts, |acts|) + s.items == s.accepted
  {
    hide Moves, Gone;
    WhatLeftWasTakenOrForcedOut(states, acts, |acts|);
    HistoryInv(states, acts, |acts|);
    NobodyForces(states, acts, |acts|);
  }

  lemma {:induction false} NobodyForces(states: seq<State>, acts: seq<Action>, n: nat)
    requires n <= |acts| < |states| && forall i :: 0 <= i < |acts| && acts[i].Start? ==> !acts[i].p.Forcing?
    ensures DrivenOut(states, acts, n) == [] && forall t: nat :: !Called(acts, t, n).Forcing?
  {
    if n > 0 { NobodyForces(states, acts, n - 1); }
  }
}
