/** The blocking queue: a ring under a mutex with two condition variables, any number of producers and
    consumers, three ways in and two ways out.

    A step is a section under the mutex, a notification after it, or a wake-up: by a notification, by
    the clock, or spurious. */
module BlockQueues {
  import opened CircularQueues
  import opened Counting

  type Item = int

  datatype PC =
    | Out
    // enqueue
    | Entering(x: Item)            // about to take the mutex, for the first time or woken
    | AwaitingRoom(x: Item)        // in pop_cv_.wait
    | Woken(x: Item)
    // enqueue_if_have_room and enqueue_nowait
    | Trying(x: Item)
    | Forcing(x: Item)
    | Discarding                   // ++discard_count_
    | NotifyPush                   // push_cv_.notify_one
    // dequeue, and dequeue_for when timed
    | Leaving(timed: bool)
    | AwaitingItem(timed: bool)    // in push_cv_.wait or wait_for
    | Roused(timed: bool)
    | Expired                      // the time of dequeue_for is over
    | NotifyPop                    // pop_cv_.notify_one

  /** `accepted` and `removed` are history: what entered the queue, and what left it, taken or, if a
      push drove it out, overridden. */
  datatype State = State(
    capacity: nat, items: seq<Item>, overridden: nat, discarded: nat, pc: seq<PC>,
    accepted: seq<Item>, removed: seq<Item>, taken: nat)

  datatype Action =
    | Start(t: nat, p: PC)
    | Run(t: nat, other: nat)      // a notification wakes `other`, if it wakes anybody
    | Timeout(t: nat)
    | Spurious(t: nat)

  predicate IsCall(p: PC) { p.Entering? || p.Trying? || p.Forcing? || p.Leaving? }

  predicate AwaitsItem(p: PC) { p.AwaitingItem? }
  predicate AwaitsRoom(p: PC) { p.AwaitingRoom? }

  predicate Enabled(s: State, a: Action) {
    match a
    case Start(t, p) => t < |s.pc| && s.pc[t] == Out && IsCall(p)
    case Run(t, other) =>
      && t < |s.pc| && s.pc[t] != Out && !s.pc[t].AwaitingItem? && !s.pc[t].AwaitingRoom?
      && (s.pc[t].NotifyPush? ==> Wakes(s.pc, other, true))
      && (s.pc[t].NotifyPop? ==> Wakes(s.pc, other, false))
    case Timeout(t) => t < |s.pc| && s.pc[t] == AwaitingItem(true)
    case Spurious(t) => t < |s.pc| && (s.pc[t].AwaitingItem? || s.pc[t].AwaitingRoom?)
  }

  /** notify_one wakes one of the threads that wait on the condition, if there is one. */
  predicate Wakes(pc: seq<PC>, other: nat, consumers: bool) {
    || (other < |pc| && (if consumers then pc[other].AwaitingItem? else pc[other].AwaitingRoom?))
    || (forall u :: 0 <= u < |pc| ==> if consumers then !AwaitsItem(pc[u]) else !AwaitsRoom(pc[u]))
  }

  function Next(s: State, a: Action): State
    requires Enabled(s, a)
  {
    match a
    case Start(t, p) => s.(pc := s.pc[t := p])
    case Run(t, other) => Step(s, t, other)
    case Timeout(t) => s.(pc := s.pc[t := Expired])
    case Spurious(t) => s.(pc := Wake(s.pc, t, s.pc[t].AwaitingItem?))
  }

  /** Thread u wakes if it waits on the condition. */
  function Wake(pc: seq<PC>, u: nat, consumers: bool): seq<PC> {
    if u >= |pc| then pc
    else if consumers && pc[u].AwaitingItem? then pc[u := Roused(pc[u].timed)]
    else if !consumers && pc[u].AwaitingRoom? then pc[u := Woken(pc[u].x)]
    else pc
  }

  function Full(s: State): bool { |s.items| >= s.capacity }

  function Step(s: State, t: nat, other: nat): State
    requires t < |s.pc|
  {
    match s.pc[t]
    case Entering(x) => PushOrWait(s, t, x)
    case Woken(x) => PushOrWait(s, t, x)
    case Trying(x) => if Full(s) then s.(pc := s.pc[t := Discarding]) else PushItem(s, t, x)
    case Forcing(x) => PushItem(s, t, x)
    case Discarding => s.(discarded := s.discarded + 1, pc := s.pc[t := Out])
    case NotifyPush => s.(pc := Wake(s.pc, other, true)[t := Out])
    case Leaving(timed) => TakeOrWait(s, t, timed)
    case Roused(timed) => TakeOrWait(s, t, timed)
    case Expired => if s.items == [] then s.(pc := s.pc[t := Out]) else TakeItem(s, t)
    case NotifyPop => s.(pc := Wake(s.pc, other, false)[t := Out])
    case _ => s
  }

  function PushOrWait(s: State, t: nat, x: Item): State
    requires t < |s.pc|
  {
    if Full(s) then s.(pc := s.pc[t := AwaitingRoom(x)]) else PushItem(s, t, x)
  }

  /** A push into a full ring drives the oldest item out. */
  function PushItem(s: State, t: nat, x: Item): State
    requires t < |s.pc|
  {
    var b := Pushed(Bounded(s.items, s.overridden), x, s.capacity);
    s.(items := b.items, overridden := b.dropped, accepted := s.accepted + [x],
       removed := s.removed + (s.items + [x])[..|s.items| + 1 - |b.items|], pc := s.pc[t := NotifyPush])
  }

  function TakeOrWait(s: State, t: nat, timed: bool): State
    requires t < |s.pc|
  {
    if s.items == [] then s.(pc := s.pc[t := AwaitingItem(timed)]) else TakeItem(s, t)
  }

  function TakeItem(s: State, t: nat): State
    requires t < |s.pc| && s.items != []
  {
    s.(items := s.items[1..], removed := s.removed + [s.items[0]], taken := s.taken + 1, pc := s.pc[t := NotifyPop])
  }

  // ----- the invariant -----

  /** Threads that will see an item for sure: woken consumers, and notifications that wake one. */
  function Rousing(p: PC): int { if p.Roused? || p.Expired? || p.NotifyPush? then 1 else 0 }
  function Making(p: PC): int { if p.Woken? || p.NotifyPop? then 1 else 0 }
  function WaitsForItem(p: PC): int { if p.AwaitingItem? then 1 else 0 }
  function WaitsForRoom(p: PC): int { if p.AwaitingRoom? then 1 else 0 }

  ghost function RousingFn(): PC -> int { p => Rousing(p) }
  ghost function MakingFn(): PC -> int { p => Making(p) }
  ghost function WaitsForItemFn(): PC -> int { p => WaitsForItem(p) }
  ghost function WaitsForRoomFn(): PC -> int { p => WaitsForRoom(p) }

  ghost predicate Inv(s: State) {
    && |s.items| <= s.capacity
    && s.removed + s.items == s.accepted
    && |s.accepted| == s.taken + |s.items| + s.overridden
    && (Sum(s.pc, WaitsForItemFn()) > 0 ==> |s.items| <= Sum(s.pc, RousingFn()))
    && (Sum(s.pc, WaitsForRoomFn()) > 0 ==> s.capacity - |s.items| <= Sum(s.pc, MakingFn()))
  }

  ghost predicate Init(s: State) {
    && s.items == [] && s.overridden == s.discarded == s.taken == 0 && s.accepted == s.removed == []
    && forall t :: 0 <= t < |s.pc| ==> s.pc[t] == Out
  }

  lemma InitInv(s: State)
    requires Init(s)
    ensures Inv(s)
  {
    SumZero(s.pc, WaitsForItemFn());
    SumZero(s.pc, WaitsForRoomFn());
  }

  /** One thread goes from one place to another: what that does to the four counts. */
  lemma MoveCounts(pc: seq<PC>, t: nat, p: PC)
    requires t < |pc|
    ensures Sum(pc[t := p], RousingFn()) == Sum(pc, RousingFn()) - Rousing(pc[t]) + Rousing(p)
    ensures Sum(pc[t := p], MakingFn()) == Sum(pc, MakingFn()) - Making(pc[t]) + Making(p)
    ensures Sum(pc[t := p], WaitsForItemFn()) == Sum(pc, WaitsForItemFn()) - WaitsForItem(pc[t]) + WaitsForItem(p)
    ensures Sum(pc[t := p], WaitsForRoomFn()) == Sum(pc, WaitsForRoomFn()) - WaitsForRoom(pc[t]) + WaitsForRoom(p)
  {
    SumUpdate(pc, RousingFn(), t, p);
    SumUpdate(pc, MakingFn(), t, p);
    SumUpdate(pc, WaitsForItemFn(), t, p);
    SumUpdate(pc, WaitsForRoomFn(), t, p);
  }

  lemma CountsAreNatural(pc: seq<PC>)
    ensures Sum(pc, RousingFn()) >= 0 && Sum(pc, MakingFn()) >= 0
    ensures Sum(pc, WaitsForItemFn()) >= 0 && Sum(pc, WaitsForRoomFn()) >= 0
  {
    SumNonNegative(pc, RousingFn());
    SumNonNegative(pc, MakingFn());
    SumNonNegative(pc, WaitsForItemFn());
    SumNonNegative(pc, WaitsForRoomFn());
  }

  lemma PushSplits(items: seq<Item>, x: Item, n: nat)
    requires |items| <= n
    ensures var kept := LastOf(items + [x], n);
      && |kept| <= n && items + [x] == (items + [x])[..|items| + 1 - |kept|] + kept
      && |items| + 1 == |kept| + if |items| >= n then 1 else 0
  {
  }

  lemma PushRegroups(removed: seq<Item>, out: seq<Item>, kept: seq<Item>, items: seq<Item>, x: Item)
    requires items + [x] == out + kept
    ensures (removed + out) + kept == (removed + items) + [x]
  {
    assert (removed + out) + kept == removed + (out + kept);
    assert (removed + items) + [x] == removed + (items + [x]);
  }

  lemma PushAccounts(s: State, t: nat, x: Item)
    requires t < |s.pc| && |s.items| <= s.capacity && s.removed + s.items == s.accepted
    ensures var s' := PushItem(s, t, x);
      && s'.capacity == s.capacity && s'.taken == s.taken && s'.pc == s.pc[t := NotifyPush]
      && |s'.items| <= s.capacity && s'.removed + s'.items == s'.accepted && |s'.accepted| == |s.accepted| + 1
      && |s.items| + 1 == |s'.items| + (if Full(s) then 1 else 0) && s'.overridden == s.overridden + if Full(s) then 1 else 0
  {
    hide LastOf;
    PushSplits(s.items, x, s.capacity);
    var kept := PushItem(s, t, x).items;
    PushRegroups(s.removed, (s.items + [x])[..|s.items| + 1 - |kept|], kept, s.items, x);
  }

  lemma PushKeeps(s: State, t: nat, x: Item)
    requires Inv(s) && t < |s.pc| && (s.pc[t].Entering? || s.pc[t].Woken? || s.pc[t].Trying? || s.pc[t].Forcing?)
    requires s.pc[t].Woken? ==> !Full(s)
    ensures Inv(PushItem(s, t, x))
  {
    hide PushItem;
    MoveCounts(s.pc, t, NotifyPush);
    CountsAreNatural(s.pc);
    PushAccounts(s, t, x);
  }

  lemma TakeKeeps(s: State, t: nat)
    requires Inv(s) && t < |s.pc| && (s.pc[t].Leaving? || s.pc[t].Roused? || s.pc[t].Expired?) && s.items != []
    ensures Inv(TakeItem(s, t))
  {
    MoveCounts(s.pc, t, NotifyPop);
    CountsAreNatural(s.pc);
    assert s.items == [s.items[0]] + s.items[1..];
  }

  /** A notification is handed on, or nobody needs it. */
  lemma NotifyKeeps(s: State, t: nat, other: nat)
    requires Inv(s) && Enabled(s, Run(t, other)) && (s.pc[t].NotifyPush? || s.pc[t].NotifyPop?)
    ensures Inv(Step(s, t, other))
  {
    var consumers := s.pc[t].NotifyPush?;
    var woken := Wake(s.pc, other, consumers);
    MoveCounts(woken, t, Out);
    if woken != s.pc {
      MoveCounts(s.pc, other, woken[other]);
    } else if consumers {
      SumZero(s.pc, WaitsForItemFn());
    } else {
      SumZero(s.pc, WaitsForRoomFn());
    }
  }

  /** Steps that touch no item and notify nobody. */
  lemma WaitKeeps(s: State, t: nat, p: PC)
    requires Inv(s) && t < |s.pc|
    requires WaitsForItem(p) > WaitsForItem(s.pc[t]) ==> s.items == []
    requires WaitsForRoom(p) > WaitsForRoom(s.pc[t]) ==> Full(s)
    requires Rousing(p) >= Rousing(s.pc[t]) || s.items == []
    requires Making(p) >= Making(s.pc[t]) || Full(s)
    ensures Inv(s.(pc := s.pc[t := p]))
  {
    MoveCounts(s.pc, t, p);
    CountsAreNatural(s.pc[t := p]);
  }

  lemma StepKeeps(s: State, t: nat, other: nat)
    requires Inv(s) && Enabled(s, Run(t, other))
    ensures Inv(Step(s, t, other))
  {
    hide Inv, PushItem, TakeItem;
    match s.pc[t] {
      case Entering(x) => if Full(s) { WaitKeeps(s, t, AwaitingRoom(x)); } else { PushKeeps(s, t, x); }
      case Woken(x) => if Full(s) { WaitKeeps(s, t, AwaitingRoom(x)); } else { PushKeeps(s, t, x); }
      case Trying(x) => if Full(s) { WaitKeeps(s, t, Discarding); } else { PushKeeps(s, t, x); }
      case Forcing(x) => PushKeeps(s, t, x);
      case Discarding => WaitKeeps(s, t, Out); Discarded(s.(pc := s.pc[t := Out]), s.discarded + 1);
      case NotifyPush => NotifyKeeps(s, t, other);
      case Leaving(timed) => if s.items == [] { WaitKeeps(s, t, AwaitingItem(timed)); } else { TakeKeeps(s, t); }
      case Roused(timed) => if s.items == [] { WaitKeeps(s, t, AwaitingItem(timed)); } else { TakeKeeps(s, t); }
      case Expired => if s.items == [] { WaitKeeps(s, t, Out); } else { TakeKeeps(s, t); }
      case NotifyPop => NotifyKeeps(s, t, other);
    }
  }

  lemma Discarded(s: State, n: nat)
    requires Inv(s)
    ensures Inv(s.(discarded := n))
  {
  }

  lemma NextInv(s: State, a: Action)
    requires Inv(s) && Enabled(s, a)
    ensures Inv(Next(s, a))
  {
    hide Inv, Step;
    match a {
      case Start(t, p) => WaitKeeps(s, t, p);
      case Run(t, other) => StepKeeps(s, t, other);
      case Timeout(t) => WaitKeeps(s, t, Expired);
      case Spurious(t) => WaitKeeps(s, t, Wake(s.pc, t, s.pc[t].AwaitingItem?)[t]);
    }
  }

  // ----- what every run guarantees -----

  ghost predicate Moves(s: State, a: Action, s': State) { Enabled(s, a) && s' == Next(s, a) }

  ghost predicate Leads(s: State, s': State) { exists a :: Moves(s, a, s') }

  ghost predicate IsRun(run: seq<State>) {
    && run != [] && Init(run[0])
    && (forall i :: 0 <= i < |run| - 1 ==> Leads(run[i], run[i + 1]))
  }

  ghost predicate Reachable(s: State) { exists run :: IsRun(run) && run[|run| - 1] == s }

  lemma {:induction false} RunInv(run: seq<State>, i: nat)
    requires IsRun(run) && i < |run|
    ensures Inv(run[i])
  {
    hide Inv, Enabled, Next, Init;
    if i == 0 {
      InitInv(run[0]);
    } else {
      RunInv(run, i - 1);
      assert Leads(run[i - 1], run[i - 1 + 1]);
      var a :| Moves(run[i - 1], a, run[i]);
      NextInv(run[i - 1], a);
    }
  }

  lemma ReachableInv(s: State)
    requires Reachable(s)
    ensures Inv(s)
  {
    hide Inv, Enabled, Next, Init;
    var run :| IsRun(run) && run[|run| - 1] == s;
    RunInv(run, |run| - 1);
  }

  /** No wake-up is lost: while consumers wait, the notifications on their way and the consumers already
      woken are at least as many as the items; and so for producers and free places. */
  lemma NoWakeUpIsLost(s: State)
    requires Reachable(s)
    ensures Sum(s.pc, WaitsForItemFn()) > 0 ==> |s.items| <= Sum(s.pc, RousingFn())
    ensures Sum(s.pc, WaitsForRoomFn()) > 0 ==> s.capacity - |s.items| <= Sum(s.pc, MakingFn())
  {
    hide Reachable;
    ReachableInv(s);
  }

  predicate AtRest(p: PC) { p == Out || p.AwaitingItem? || p.AwaitingRoom? }

  /** So when nothing moves, nobody waits in vain: consumers only for an empty queue, producers only for
      a full one, and not both unless the queue has no places at all. */
  lemma RestingQueueIsSettled(s: State, t: nat, u: nat)
    requires Reachable(s) && forall v :: 0 <= v < |s.pc| ==> AtRest(s.pc[v])
    requires t < |s.pc| && u < |s.pc|
    ensures s.pc[t].AwaitingItem? ==> s.items == []
    ensures s.pc[t].AwaitingRoom? ==> |s.items| == s.capacity
    ensures s.pc[t].AwaitingItem? && s.pc[u].AwaitingRoom? ==> s.capacity == 0
  {
    hide Reachable;
    ReachableInv(s);
    forall v | 0 <= v < |s.pc| ensures Rousing(s.pc[v]) == 0 && Making(s.pc[v]) == 0 { assert AtRest(s.pc[v]); }
    SumZero(s.pc, RousingFn());
    SumZero(s.pc, MakingFn());
    SumAtLeast(s.pc, WaitsForItemFn(), t);
    SumAtLeast(s.pc, WaitsForRoomFn(), t);
    SumAtLeast(s.pc, WaitsForRoomFn(), u);
  }

  /** Items leave in the order in which they came; each was taken, driven out, or is still there. */
  lemma EveryItemIsAccountedFor(s: State)
    requires Reachable(s)
    ensures s.removed + s.items == s.accepted && |s.items| <= s.capacity
    ensures |s.accepted| == s.taken + |s.items| + s.overridden
  {
    hide Reachable;
    ReachableInv(s);
  }

  // ----- the queue as an object updated in place -----

  class BlockQueue {
    const queue: CircularQueue<Item>
    var discardCount: nat
    var threads: seq<PC>
    ghost var accepted: seq<Item>
    ghost var removed: seq<Item>
    ghost var taken: nat

    ghost function Snapshot(): State
      requires queue.Valid()
      reads this, queue, queue.vec
    {
      State(queue.Capacity(), queue.Contents(), queue.overrideCnt, discardCount, threads, accepted, removed, taken)
    }

    ghost predicate Valid()
      reads this, queue, queue.vec
    {
      queue.Valid() && queue.maxSize > 0 && Inv(Snapshot())
    }

    constructor (maxItems: nat, threadCount: nat)
      ensures Valid() && Init(Snapshot()) && |threads| == threadCount && queue.Capacity() == maxItems
      ensures fresh(queue) && fresh(queue.vec)
    {
      queue := new CircularQueue(maxItems);
      discardCount := 0;
      threads := seq(threadCount, _ => Out);
      accepted, removed, taken := [], [], 0;
      new;
      InitInv(Snapshot());
    }

    method Call(t: nat, p: PC)
      requires Valid() && Enabled(Snapshot(), Start(t, p))
      modifies this
      ensures Valid() && Snapshot() == Next(old(Snapshot()), Start(t, p))
    {
      NextInv(Snapshot(), Start(t, p));
      threads := threads[t := p];
    }

    /** queue_.push_back under the mutex. */
    method Push(t: nat, item: Item)
      requires Valid() && t < |threads| && Inv(PushItem(Snapshot(), t, item))
      modifies this, queue, queue.vec
      ensures Valid() && Snapshot() == PushItem(old(Snapshot()), t, item)
    {
      hide Inv;
      ghost var before := Snapshot();
      queue.PushBack(item);
      accepted := accepted + [item];
      removed := removed + (before.items + [item])[..|before.items| + 1 - |queue.Contents()|];
      threads := threads[t := NotifyPush];
    }

    /** The section under the mutex of the three ways in. */
    method RunEnqueue(t: nat)
      requires Valid() && Enabled(Snapshot(), Run(t, 0))
      requires threads[t].Entering? || threads[t].Woken? || threads[t].Trying? || threads[t].Forcing?
      modifies this, queue, queue.vec
      ensures Valid() && Snapshot() == Next(old(Snapshot()), Run(t, 0))
    {
      hide Inv, PushItem, TakeItem;
      NextInv(Snapshot(), Run(t, 0));
      var item := threads[t].x;
      var full := queue.Full();
      if threads[t].Forcing? || !full {
        Push(t, item);
      } else if threads[t].Trying? {
        threads := threads[t := Discarding];
      } else {
        threads := threads[t := AwaitingRoom(item)];
      }
    }

    /** The section under the mutex of the two ways out; `got` is false if there was no item. */
    method RunDequeue(t: nat) returns (got: bool, item: Item)
      requires Valid() && Enabled(Snapshot(), Run(t, 0))
      requires threads[t].Leaving? || threads[t].Roused? || threads[t].Expired?
      modifies this, queue
      ensures Valid() && Snapshot() == Next(old(Snapshot()), Run(t, 0))
      ensures got <==> old(queue.Contents()) != []
      ensures got ==> item == old(queue.Contents())[0]
    {
      hide Inv, PushItem, PushOrWait, Wake;
      NextInv(Snapshot(), Run(t, 0));
      var empty := queue.Empty();
      got, item := !empty, 0;
      if got {
        item := queue.Front();
        removed, taken := removed + [item], taken + 1;
        queue.PopFront();
        threads := threads[t := NotifyPop];
      } else if threads[t].Expired? {
        threads := threads[t := Out];
      } else {
        threads := threads[t := AwaitingItem(threads[t].timed)];
      }
    }

    /** notify_one, after the mutex has been given back. */
    method RunNotify(t: nat, other: nat)
      requires Valid() && Enabled(Snapshot(), Run(t, other)) && (threads[t].NotifyPush? || threads[t].NotifyPop?)
      modifies this
      ensures Valid() && Snapshot() == Next(old(Snapshot()), Run(t, other))
    {
      hide Inv, PushItem, TakeItem;
      NextInv(Snapshot(), Run(t, other));
      var consumers := threads[t].NotifyPush?;
      if other < |threads| {
        if consumers && threads[other].AwaitingItem? {
          threads := threads[other := Roused(threads[other].timed)];
        } else if !consumers && threads[other].AwaitingRoom? {
          threads := threads[other := Woken(threads[other].x)];
        }
      }
      threads := threads[t := Out];
    }

    method RunDiscard(t: nat)
      requires Valid() && Enabled(Snapshot(), Run(t, 0)) && threads[t].Discarding?
      modifies this
      ensures Valid() && Snapshot() == Next(old(Snapshot()), Run(t, 0))
    {
      hide Inv, PushItem, TakeItem;
      NextInv(Snapshot(), Run(t, 0));
      discardCount := discardCount + 1;
      threads := threads[t := Out];
    }

    /** The clock, or nothing at all, wakes a waiting thread. */
    method WakeUp(t: nat, byClock: bool)
      requires Valid() && Enabled(Snapshot(), if byClock then Timeout(t) else Spurious(t))
      modifies this
      ensures Valid() && Snapshot() == Next(old(Snapshot()), if byClock then Timeout(t) else Spurious(t))
    {
      hide Inv, PushItem, TakeItem;
      NextInv(Snapshot(), if byClock then Timeout(t) else Spurious(t));
      if byClock {
        threads := threads[t := Expired];
      } else if threads[t].AwaitingItem? {
        threads := threads[t := Roused(threads[t].timed)];
      } else {
        threads := threads[t := Woken(threads[t].x)];
      }
    }
  }
}
