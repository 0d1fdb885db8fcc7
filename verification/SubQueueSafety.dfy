/** What every run of a sub-queue guarantees, whatever the interleaving: dequeuers get what was
    enqueued, in order, and no slot is overwritten before its reader is done with it. */
module SubQueueSafety {
  import opened Options
  import opened Words
  import opened SubQueues
  import opened SubQueueInvariant
  import SubQueueReaders
  import SubQueueProducer
  import Tickets

  lemma ProducerKeeps(s: State, ok: bool, b: nat)
    requires Inv(s) && Enabled(s, RunProducer(ok, b))
    ensures Inv(ProducerStep(s, ok, b))
  {
    hide Inv, Reuse, Grow, LinkBlock, PutEntry, PublishEntry, LeewayFor;
    match s.own.pc {
      case CheckEmpty(_, _, i) =>
        if FlagAt(s.mem, NextOf(s.own, s.own.tailBlock.GetOr(0)), i) && i + 1 >= BLOCK_SIZE {
          SubQueueProducer.ReuseKeeps(s);
        } else {
          SubQueueProducer.CheckKeeps(s);
        }
      case ReadHead(_, _) => SubQueueProducer.ReadHeadKeeps(s);
      case MakeRoom(_, _) => MakeRoomKeeps(s, ok, b);
      case Requisition(_, _) => if ok { SubQueueProducer.LinkKeeps(s, b); } else { SubQueueProducer.NoGrowthKeeps(s, Resting); }
      case WriteEntry(_) => SubQueueProducer.PutEntryKeeps(s);
      case StoreFront(_) => SubQueueProducer.PublishEntryKeeps(s);
      case Construct(_) => SubQueueProducer.ConstructKeeps(s, ProducerStep(s, ok, b));
      case StoreTail(_) => SubQueueProducer.StoreTailKeeps(s, ProducerStep(s, ok, b));
    }
  }

  lemma MakeRoomKeeps(s: State, ok: bool, b: nat)
    requires Inv(s) && Enabled(s, RunProducer(ok, b)) && s.own.pc.MakeRoom?
    ensures Inv(ProducerStep(s, ok, b))
  {
    hide Inv, Grow;
    var MakeRoom(v, alloc) := s.own.pc;
    if s.own.slotsUsed != |Last(s.own).entries| {
      SubQueueProducer.NoGrowthKeeps(s, Requisition(v, alloc));
    } else if !alloc || !ok {
      SubQueueProducer.NoGrowthKeeps(s, Resting);
    } else {
      SubQueueProducer.GrowKeeps(s);
    }
  }

  lemma NextInv(s: State, a: Action)
    requires Inv(s) && Enabled(s, a) && Steady(s, a)
    ensures Inv(Next(s, a))
  {
    hide Inv, ProducerStep, CounterStep, ReaderStep, Begin;
    match a {
      case AddBlock => SubQueueProducer.AddBlockKeeps(s);
      case StartEnqueue(v, alloc) => SubQueueProducer.BeginKeeps(s, v, alloc);
      case RunProducer(ok, b) => ProducerKeeps(s, ok, b);
      case StartDequeue(t, max) => SubQueueReaders.StartDequeueKeeps(s, t, max);
      case RunDequeue(t) => SubQueueReaders.CounterKeeps(s, t);
      case RunReader(t) => SubQueueReaders.ReaderKeeps(s, t);
    }
  }

  // ----- runs -----

  ghost predicate Moves(s: State, a: Action, s': State) { Enabled(s, a) && Steady(s, a) && s' == Next(s, a) }

  ghost predicate Leads(s: State, s': State) { exists a :: Moves(s, a, s') }

  ghost predicate IsRun(run: seq<State>) {
    && run != [] && Init(run[0])
    && (forall i :: 0 <= i < |run| - 1 ==> Leads(run[i], run[i + 1]))
  }

  ghost predicate Reachable(s: State) { exists run :: IsRun(run) && run[|run| - 1] == s }

  lemma {:induction false} RunInv(run: seq<State>, i: nat)
    requires IsRun(run) && i < |run|
    ensures Inv(run[i])
  {
    hide Inv, Enabled, Next, Init;
    if i == 0 {
      InitInv(run[0]);
    } else {
      RunInv(run, i - 1);
      assert Leads(run[i - 1], run[i - 1 + 1]);
      var a :| Moves(run[i - 1], a, run[i]);
      NextInv(run[i - 1], a);
    }
  }

  lemma ReachableInv(s: State)
    requires Reachable(s)
    ensures Inv(s)
  {
    hide Inv, Enabled, Next, Init;
    var run :| IsRun(run) && run[|run| - 1] == s;
    RunInv(run, |run| - 1);
  }

  // ----- what is read -----

  lemma TakeStep(s: State, t: nat)
    requires Enabled(s, RunReader(t)) && s.readers[t].Take?
    ensures t < |s.got| && ReaderStep(s, t).got == s.got[t := s.got[t] + [CellAt(s.mem, s.readers[t].block, s.readers[t].index % BLOCK_SIZE)]]
  {
  }

  /** A dequeuer about to move from a slot has found, through whichever block index it loaded and
      however it has grown or turned since, the slot that holds the element enqueued at its index. */
  lemma ClaimedIndexResolves(s: State, t: nat)
    requires Reachable(s) && Enabled(s, RunReader(t)) && s.readers[t].Take?
    ensures t < |s.got| && 0 <= s.readers[t].index < |s.log|
    ensures CellAt(s.mem, s.readers[t].block, s.readers[t].index % BLOCK_SIZE) == Some(s.log[s.readers[t].index])
    ensures ReaderStep(s, t).got == s.got[t := s.got[t] + [Some(s.log[s.readers[t].index])]]
  {
    hide Inv, ReaderStep, Reachable;
    ReachableInv(s);
    TakeStep(s, t);
    SubQueueReaders.TakeFacts(s, t);
    SubQueueReaders.SlotFacts(s, t, s.readers[t].index);
  }

  /** The elements of indices first .. stop of the log, each present. */
  function Elements(log: seq<Item>, first: int, stop: int): (e: seq<Option<Item>>)
    requires 0 <= first <= stop <= |log|
  {
    seq(stop - first, k requires 0 <= k < stop - first => Some(log[first + k]))
  }

  lemma ReadInOrder(hs: seq<Header>, assign: seq<nat>, log: seq<Item>, r: Reader, first: int, stop: int, got: seq<Option<Item>>)
    requires ReaderOk(hs, assign, log, r, first, stop, got)
    ensures 0 <= first < stop <= |log| && first + |got| <= stop
    ensures got == Elements(log, first, first + |got|)
    ensures r.SetEmpty? && r.end == stop ==> first + |got| == stop
  {
    hide Covers;
  }

  /** At every moment of a dequeue, what it has read is the elements of the first indices of its
      claim, in the order in which they were enqueued. */
  lemma DequeueIsFifo(s: State, t: nat)
    requires Reachable(s) && t < |s.readers| && s.readers[t] != Away
    ensures t < |s.tk.pc| && s.tk.pc[t].Claimed? && t < |s.got|
    ensures 0 <= First(s, t) < Stop(s, t) <= |s.log| && First(s, t) + |s.got[t]| <= Stop(s, t)
    ensures s.got[t] == Elements(s.log, First(s, t), First(s, t) + |s.got[t]|)
    ensures s.readers[t].SetEmpty? && s.readers[t].end == Stop(s, t) ==> First(s, t) + |s.got[t]| == Stop(s, t)
  {
    hide Inv, ReaderOk, Reachable;
    ReachableInv(s);
    ThreadFacts(s, t);
    ThreadCounts(s);
    ReadInOrder(s.own.headers, s.assign, s.log, s.readers[t], First(s, t), Stop(s, t), s.got[t]);
  }

  lemma ThreadCounts(s: State)
    requires Inv(s)
    ensures |s.got| == |s.readers| == |s.tk.pc|
  {
    hide CellsOk, LiveOk, FreeOk, MemOk, SeenOk, ProducerOk, Tickets.Inv;
  }

  lemma LastStep(s: State, t: nat)
    requires Enabled(s, RunReader(t)) && ReaderStep(s, t).readers[t] == Away
    ensures s.readers[t].SetEmpty? && s.readers[t].end == Stop(s, t) && ReaderStep(s, t).got == s.got
  {
  }

  /** And when the dequeue returns, it has all of them. */
  lemma ReturnedDequeueIsWhole(s: State, t: nat)
    requires Reachable(s) && Enabled(s, RunReader(t)) && ReaderStep(s, t).readers[t] == Away
    ensures 0 <= First(s, t) < Stop(s, t) <= |s.log|
    ensures ReaderStep(s, t).got == s.got && s.got[t] == Elements(s.log, First(s, t), Stop(s, t))
  {
    hide Reachable, ReaderStep;
    LastStep(s, t);
    DequeueIsFifo(s, t);
  }

  // ----- what is overwritten -----

  /** The producer constructs an element only in an empty slot, and in none whose element is still to
      be read or whose reader has yet to mark it empty. */
  lemma NoSlotIsOverwritten(s: State, i: int)
    requires Reachable(s) && s.own.headers != [] && s.own.pc.Construct?
    requires 0 <= i < |s.log| && Claimer(ClaimsOf(s), i) != Done
    ensures CellAt(s.mem, s.own.tailBlock.GetOr(0), s.tk.tail % BLOCK_SIZE) == None
    ensures BlockOf(s.assign, i) != s.own.tailBlock.GetOr(0) || i % BLOCK_SIZE != s.tk.tail % BLOCK_SIZE
  {
    hide Inv, Reachable;
    ReachableInv(s);
    SubQueueProducer.TailSlot(s);
    SubQueueProducer.TailCell(s);
    SubQueueProducer.ProducerFacts(s);
    PendingIndexIsLive(s, i);
    SlotsAreDistinct(s.assign, Live(s), i, s.tk.tail);
  }

  lemma PendingIndexIsLive(s: State, i: int)
    requires Inv(s) && 0 <= i < |s.log| && Claimer(ClaimsOf(s), i) != Done
    ensures Live(s) * BLOCK_SIZE <= i < |s.assign| * BLOCK_SIZE
  {
    SubQueueReaders.IndexHasBlock(s, i);
    hide CellsOk, RingOk, FreeOk, MemOk, SeenOk, HeadersOk, CurrentOk, ThreadsOk, Tickets.Inv;
  }

  /** Every element enqueued and not yet taken is still in its slot. */
  lemma NothingIsLost(s: State, i: int)
    requires Reachable(s) && 0 <= i < |s.log| && Claimer(ClaimsOf(s), i) == Unread
    ensures CellAt(s.mem, BlockOf(s.assign, i), i % BLOCK_SIZE) == Some(s.log[i])
  {
    hide Inv, Reachable;
    ReachableInv(s);
    PendingIndexIsLive(s, i);
    CellFact(s, i);
  }

  lemma CellFact(s: State, i: int)
    requires Inv(s) && Live(s) * BLOCK_SIZE <= i < |s.assign| * BLOCK_SIZE
    ensures CellOk(s.mem, s.assign, s.log, Staged(s.own.pc), ClaimsOf(s), i)
  {
    hide CellOk, RingOk, FreeOk, MemOk, SeenOk, HeadersOk, CurrentOk, ThreadsOk, Tickets.Inv;
  }

  /** The block the producer takes for its next indices, re-used or new, holds no element that is
      still to be read, and no flag that a reader has still to raise. */
  lemma NewBlockIsOutOfUse(s: State, ok: bool, b: nat, i: int)
    requires Reachable(s) && Enabled(s, RunProducer(ok, b)) && 0 <= i < |s.log|
    requires s.own.pc.CheckEmpty? || s.own.pc.Requisition?
    requires ProducerStep(s, ok, b).own.pc.WriteEntry?
    requires Claimer(ClaimsOf(s), i) != Done
    ensures BlockOf(s.assign, i) != ProducerStep(s, ok, b).own.tailBlock.GetOr(0)
  {
    hide Inv, Reachable, ProducerStep;
    ReachableInv(s);
    PendingIndexIsLive(s, i);
    SubQueueReaders.IndexHasBlock(s, i);
    NewBlock(s, ok, b);
    if s.own.pc.CheckEmpty? {
      SubQueueProducer.ProducerFacts(s);
      SubQueueProducer.AheadIsOldest(s);
      SubQueueProducer.SeenOneMore(s);
      if i / BLOCK_SIZE == Live(s) { SubQueueProducer.OldestIsDone(s, i); }
    }
  }

  lemma NewBlock(s: State, ok: bool, b: nat)
    requires Enabled(s, RunProducer(ok, b)) && (s.own.pc.CheckEmpty? || s.own.pc.Requisition?)
    requires ProducerStep(s, ok, b).own.pc.WriteEntry?
    ensures ProducerStep(s, ok, b).own.tailBlock ==
            Some(if s.own.pc.CheckEmpty? then NextOf(s.own, s.own.tailBlock.GetOr(0)) else b)
    ensures s.own.pc.CheckEmpty? ==> s.own.pc.i + 1 >= BLOCK_SIZE && FlagAt(s.mem, NextOf(s.own, s.own.tailBlock.GetOr(0)), s.own.pc.i)
    ensures s.own.pc.Requisition? ==> b !in s.assign
  {
  }

  // ----- the assertions in the program -----

  /** The tail, the head and the oldest block in use are less than half a turn apart. */
  lemma HeadIsClose(s: State)
    requires Inv(s)
    ensures Live(s) * BLOCK_SIZE <= Tickets.Head(s.tk) <= s.tk.tail < Live(s) * BLOCK_SIZE + HALF
  {
    hide CellsOk, RingOk, FreeOk, MemOk, SeenOk, HeadersOk, ThreadsOk, Tickets.Inv, HeaderOk;
    SubQueueProducer.ProducerFacts(s);
  }

  /** The head the producer reads is never beyond the tail in the circular order, as enqueue asserts,
      and it goes on to make room exactly when the tail, a block later, is within half a turn. */
  lemma LeewayIsExact(s: State, v: Item, alloc: bool)
    requires Reachable(s)
    ensures !CircularLess(Wrap(s.tk.tail), Wrap(Tickets.Head(s.tk)))
    ensures LeewayFor(s, v, alloc).MakeRoom? <==> s.tk.tail + BLOCK_SIZE - Tickets.Head(s.tk) < HALF
  {
    hide Inv, Reachable;
    ReachableInv(s);
    HeadIsClose(s);
    var head, tail := Tickets.Head(s.tk), s.tk.tail;
    CircularLessOnWords(tail, head);
    CircularLessOnWords(head, tail + BLOCK_SIZE);
    WrapUnique(tail - head, tail - head, 0);
    WrapUnique(head - (tail + BLOCK_SIZE), WORD - (tail + BLOCK_SIZE - head), -1);
  }

  /** No flag is raised twice, as set_many_empty asserts. */
  lemma FlagIsDown(s: State, t: nat)
    requires Reachable(s) && Enabled(s, RunReader(t)) && s.readers[t].SetEmpty?
    ensures var r := s.readers[t];
      !FlagAt(s.mem, r.block, BLOCK_SIZE - 1 - r.from % BLOCK_SIZE - (r.end - r.from) + 1 + r.j)
  {
    hide Inv, Reachable;
    ReachableInv(s);
    SubQueueReaders.FlagOfIndex(s, t);
    SubQueueReaders.SlotFacts(s, t, s.readers[t].end - 1 - s.readers[t].j);
  }
}
