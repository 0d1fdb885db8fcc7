/** The sub-queue as an object updated in place.  Each method performs the next atomic operation of
    the producer or of one dequeuer, and is proved to be that step of the machine in SubQueues. */
module ExplicitProducers {
  import opened Options
  import opened Words
  import opened SubQueues
  import opened SubQueueInvariant
  import SubQueueReaders
  import SubQueueSafety
  import Modular
  import Tickets

  /** The slot of the k-th oldest entry of a full block index. */
  function OldSlot(front: int, size: int, k: int): (slot: int)
    requires size > 0
    ensures 0 <= slot < size
  {
    (front - size + k) % size
  }

  lemma NextSlot(front: int, size: int, j: int)
    requires 0 <= front < size && 0 <= j < size
    ensures OldSlot(front, size, j + 1) == (OldSlot(front, size, j) + 1) % size
    ensures OldSlot(front, size, j + 1) == front <==> j + 1 == size
  {
    Modular.ModAdd(front - size + j, 1, size);
    Modular.DivModUnique(front, size, 0, front);
    if j + 1 < size { Modular.ModDistinct(front - size + (j + 1), front, size); }
  }

  lemma CopiedSlots(h: Header, front: int, size: nat, entries: seq<Entry>)
    requires 0 <= front < size == |h.entries| && |entries| == 2 * size
    requires forall k :: 0 <= k < 2 * size ==>
      entries[k] == if k < size then h.entries[OldSlot(front, size, k)] else Entry(0, 0)
    ensures entries == Copied(h, front, size)
  {
    var copied := Copied(h, front, size);
    assert |copied| == |entries|;
    forall k | 0 <= k < 2 * size ensures entries[k] == copied[k] {
      if k < size { assert copied[k] == EntryAt(h, OldSlot(front, size, k)); }
    }
  }

  /** The producer's steps, one by one. */
  lemma ProducerNext(s: State, ok: bool, b: nat)
    requires Enabled(s, RunProducer(ok, b))
    ensures s.own.headers != [] && Next(s, RunProducer(ok, b)) == ProducerStep(s, ok, b)
    ensures s.own.pc.CheckEmpty? ==> ProducerStep(s, ok, b) == CheckOne(s, s.own.pc.v, s.own.pc.alloc, s.own.pc.i)
    ensures s.own.pc.MakeRoom? ==>
      ProducerStep(s, ok, b) ==
        if s.own.slotsUsed != |Last(s.own).entries| then s.(own := s.own.(pc := Requisition(s.own.pc.v, s.own.pc.alloc)))
        else if !s.own.pc.alloc || !ok then s.(own := s.own.(pc := Resting))
        else Grow(s, s.own.pc.v, s.own.pc.alloc)
    ensures s.own.pc.Requisition? ==>
      ProducerStep(s, ok, b) == if ok then LinkBlock(s, s.own.pc.v, b) else s.(own := s.own.(pc := Resting))
    ensures s.own.pc.WriteEntry? ==> ProducerStep(s, ok, b) == PutEntry(s, s.own.pc.v)
    ensures s.own.pc.StoreFront? ==> ProducerStep(s, ok, b) == PublishEntry(s, s.own.pc.v)
    ensures s.own.pc.Requisition? && ok ==> b < |s.own.next|
  {
  }

  class ExplicitProducer {
    const counters: Tickets.DequeueCounters
    // the memory of all blocks: elements, emptyFlags and next of each
    var elements: seq<seq<Option<Item>>>
    var emptyFlags: seq<seq<bool>>
    var next: seq<nat>
    var tailBlock: Option<nat>
    var blockIndices: seq<Header>
    var pr_blockIndexSlotsUsed: nat
    var pr_blockIndexFront: nat
    var producer: ProducerPC
    var dequeuers: seq<Reader>
    var output: seq<seq<Option<Item>>>
    // history
    var log: seq<Item>
    var assign: seq<nat>

    ghost function Snapshot(): State
      reads this, counters
    {
      State(counters.Snapshot(), Memory(elements, emptyFlags),
            Producer(producer, next, tailBlock, pr_blockIndexSlotsUsed, pr_blockIndexFront, blockIndices),
            dequeuers, output, log, assign)
    }

    ghost predicate Valid()
      reads this, counters
    {
      counters.Valid() && Inv(Snapshot())
    }

    constructor (threadCount: nat)
      ensures Init(Snapshot()) && Valid() && |dequeuers| == threadCount && fresh(counters)
    {
      counters := new Tickets.DequeueCounters(threadCount);
      elements, emptyFlags, next, tailBlock := [], [], [], None;
      blockIndices := [Header(Wrap(-1), seq(INITIAL_INDEX_SIZE, _ => Entry(0, 0)), 0, 0, -1)];
      pr_blockIndexSlotsUsed, pr_blockIndexFront, producer := 0, 0, Resting;
      dequeuers := seq(threadCount, _ => Away);
      output := seq(threadCount, _ => []);
      log, assign := [], [];
      new;
      assert Init(Snapshot());
      InitInv(Snapshot());
    }

    // ----- enqueue -----

    method CallEnqueue(v: Item, alloc: bool)
      requires Valid() && Enabled(Snapshot(), StartEnqueue(v, alloc))
      modifies this
      ensures Snapshot() == Next(old(Snapshot()), StartEnqueue(v, alloc)) && Valid()
    {
      hide Inv;
      SubQueueSafety.NextInv(Snapshot(), StartEnqueue(v, alloc));
      if counters.tailIndex % BLOCK_SIZE != 0 {
        producer := Construct(v);
      } else if tailBlock != None {
        producer := CheckEmpty(v, alloc, 0);
      } else {
        producer := ReadHead(v, alloc);
      }
    }

    /** is_empty reads one flag of the block ahead. */
    method RunCheckEmpty()
      requires Valid() && Enabled(Snapshot(), RunProducer(true, 0)) && producer.CheckEmpty?
      modifies this
      ensures Snapshot() == Next(old(Snapshot()), RunProducer(true, 0)) && Valid()
    {
      hide Inv, Tickets.Inv, Tickets.Next, Enabled, Next, ProducerStep, FlagAt, ResetEmpty;
      ProducerNext(Snapshot(), true, 0);
      ghost var before := Snapshot();
      SubQueueSafety.NextInv(before, RunProducer(true, 0));
      var CheckEmpty(v, alloc, i) := producer;
      var tail := tailBlock.GetOr(0);
      var ahead := if tail < |next| then next[tail] else tail;
      if !FlagAt(Memory(elements, emptyFlags), ahead, i) {
        producer := ReadHead(v, alloc);
      } else if i + 1 < BLOCK_SIZE {
        producer := CheckEmpty(v, alloc, i + 1);
      } else {
        tailBlock := Some(ahead);
        ClearFlags(ahead);
        var last := |blockIndices| - 1;
        blockIndices := blockIndices[last := blockIndices[last].(lo := blockIndices[last].lo + 1)];
        assign := assign + [ahead];
        producer := WriteEntry(v);
      }
    }

    /** reset_empty: all flags of a block go down. */
    method ClearFlags(b: nat)
      modifies this`emptyFlags
      ensures Memory(elements, emptyFlags) == ResetEmpty(old(Memory(elements, emptyFlags)), b)
    {
      if b < |emptyFlags| {
        var flags: seq<bool> := [];
        for i := 0 to BLOCK_SIZE
          invariant flags == seq(i, _ => false)
        {
          flags := flags + [false];
        }
        emptyFlags := emptyFlags[b := flags];
      }
    }

    /** The leeway between head and tail allows for one more block, or the enqueue gives up. */
    method RunReadHead()
      requires Valid() && Enabled(Snapshot(), RunProducer(true, 0)) && producer.ReadHead?
      modifies this
      ensures Snapshot() == Next(old(Snapshot()), RunProducer(true, 0)) && Valid()
    {
      hide Inv;
      SubQueueSafety.NextInv(Snapshot(), RunProducer(true, 0));
      var ReadHead(v, alloc) := producer;
      var currentTailIndex := counters.tailIndex;
      if !CircularLess(Wrap(counters.headIndex), Wrap(currentTailIndex + BLOCK_SIZE)) {
        producer := Resting;
      } else {
        producer := MakeRoom(v, alloc);
      }
    }

    /** The entries in use of a full block index, copied oldest first to the start of a larger one. */
    method CopyEntries() returns (newBlockIndexEntries: seq<Entry>)
      requires blockIndices != []
      requires pr_blockIndexFront < pr_blockIndexSlotsUsed == |blockIndices[|blockIndices| - 1].entries|
      ensures newBlockIndexEntries == Copied(blockIndices[|blockIndices| - 1], pr_blockIndexFront, pr_blockIndexSlotsUsed)
    {
      hide OldSlot;
      var prev, size := blockIndices[|blockIndices| - 1].entries, pr_blockIndexSlotsUsed;
      newBlockIndexEntries := seq(2 * size, _ => Entry(0, 0));
      var i := OldSlot(pr_blockIndexFront, size, 0);
      var j, more := 0, true;
      while more
        invariant |newBlockIndexEntries| == 2 * size && 0 <= j <= size && i == OldSlot(pr_blockIndexFront, size, j)
        invariant more <==> j < size
        invariant forall k :: 0 <= k < 2 * size ==>
          newBlockIndexEntries[k] == if k < j then prev[OldSlot(pr_blockIndexFront, size, k)] else Entry(0, 0)
        decreases size - j
      {
        newBlockIndexEntries := newBlockIndexEntries[j := prev[i]];
        NextSlot(pr_blockIndexFront, size, j);
        j, i := j + 1, (i + 1) % size;
        more := i != pr_blockIndexFront;
      }
      CopiedSlots(blockIndices[|blockIndices| - 1], pr_blockIndexFront, size, newBlockIndexEntries);
    }

    method RunMakeRoom(ok: bool)
      requires Valid() && Enabled(Snapshot(), RunProducer(ok, 0)) && producer.MakeRoom?
      modifies this
      ensures Snapshot() == Next(old(Snapshot()), RunProducer(ok, 0)) && Valid()
    {
      hide Inv, Tickets.Inv, Tickets.Next, Enabled, Next, ProducerStep, Copied;
      ProducerNext(Snapshot(), ok, 0);
      ghost var before := Snapshot();
      SubQueueSafety.NextInv(before, RunProducer(ok, 0));
      var MakeRoom(v, alloc) := producer;
      var header := blockIndices[|blockIndices| - 1];
      if pr_blockIndexSlotsUsed != |header.entries| {
        producer := Requisition(v, alloc);
      } else if !alloc || !ok {
        producer := Resting;
      } else {
        FullIndex(before);
        var entries := CopyEntries();
        var n := pr_blockIndexSlotsUsed;
        blockIndices := blockIndices + [Header(Wrap(n - 1), entries, n - |assign|, |assign| - n, |assign| - 1)];
        pr_blockIndexFront := n;
        producer := Requisition(v, alloc);
      }
    }

    /** A block from the pool, linked into the ring behind the tail. */
    method RunRequisition(ok: bool, newBlock: nat)
      requires Valid() && Enabled(Snapshot(), RunProducer(ok, newBlock)) && producer.Requisition?
      modifies this
      ensures Snapshot() == Next(old(Snapshot()), RunProducer(ok, newBlock)) && Valid()
    {
      hide Inv, Tickets.Inv, Tickets.Next, Enabled, Next, ProducerStep, ResetEmpty;
      ProducerNext(Snapshot(), ok, newBlock);
      ghost var before := Snapshot();
      SubQueueSafety.NextInv(before, RunProducer(ok, newBlock));
      var Requisition(v, _) := producer;
      if !ok {
        producer := Resting;
      } else {
        ClearFlags(newBlock);
        if tailBlock == None {
          next := next[newBlock := newBlock];
        } else if tailBlock.value < |next| {
          next := next[newBlock := next[tailBlock.value]];
          next := next[tailBlock.value := newBlock];
        }
        tailBlock := Some(newBlock);
        pr_blockIndexSlotsUsed := pr_blockIndexSlotsUsed + 1;
        assign := assign + [newBlock];
        producer := WriteEntry(v);
      }
    }

    /** The entry for the new block, then the front that publishes it. */
    method RunAddToIndex()
      requires Valid() && Enabled(Snapshot(), RunProducer(true, 0)) && (producer.WriteEntry? || producer.StoreFront?)
      modifies this
      ensures Snapshot() == Next(old(Snapshot()), RunProducer(true, 0)) && Valid()
    {
      hide Inv, Tickets.Inv, Tickets.Next, Enabled, Next, ProducerStep;
      ghost var before := Snapshot();
      ProducerNext(before, true, 0);
      SubQueueSafety.NextInv(before, RunProducer(true, 0));
      var last := |blockIndices| - 1;
      var header := blockIndices[last];
      if producer.WriteEntry? {
        if pr_blockIndexFront < |header.entries| {
          var entry := Entry(Wrap(counters.tailIndex), tailBlock.GetOr(0));
          blockIndices := blockIndices[last := header.(entries := header.entries[pr_blockIndexFront := entry])];
        }
        producer := StoreFront(producer.v);
      } else {
        blockIndices := blockIndices[last := header.(front := pr_blockIndexFront, hi := header.hi + 1)];
        pr_blockIndexFront := if |header.entries| > 0 then (pr_blockIndexFront + 1) % |header.entries| else 0;
        producer := Construct(producer.v);
      }
    }

    /** new (slot) T(element), in an empty slot. */
    method RunConstruct()
      requires Valid() && Enabled(Snapshot(), RunProducer(true, 0)) && producer.Construct?
      modifies this
      ensures Snapshot() == Next(old(Snapshot()), RunProducer(true, 0)) && Valid()
    {
      hide Inv;
      SubQueueSafety.NextInv(Snapshot(), RunProducer(true, 0));
      var b, i := tailBlock.GetOr(0), counters.tailIndex % BLOCK_SIZE;
      if b < |elements| && i < |elements[b]| {
        elements := elements[b := elements[b][i := Some(producer.v)]];
      }
      producer := StoreTail(producer.v);
    }

    /** The tail moves on: the element can be dequeued, and the enqueue has succeeded. */
    method RunStoreTail()
      requires Valid() && Enabled(Snapshot(), RunProducer(true, 0)) && producer.StoreTail?
      modifies this, counters
      ensures Snapshot() == Next(old(Snapshot()), RunProducer(true, 0)) && Valid()
      ensures log == old(log) + [old(producer).v]
    {
      hide Inv;
      SubQueueSafety.NextInv(Snapshot(), RunProducer(true, 0));
      log := log + [producer.v];
      producer := Resting;
      counters.PublishTail();
    }

    // ----- dequeue -----

    method CallDequeueBulk(t: nat, max: nat)
      requires Valid() && Enabled(Snapshot(), StartDequeue(t, max))
      modifies counters
      ensures Snapshot() == Next(old(Snapshot()), StartDequeue(t, max)) && Valid()
    {
      hide Inv, Tickets.Inv;
      SubQueueSafety.NextInv(Snapshot(), StartDequeue(t, max));
      counters.CallDequeueBulk(t, max);
    }

    /** The operations on the counters up to the claim. */
    method RunCounters(t: nat)
      requires Valid() && Enabled(Snapshot(), RunDequeue(t)) && !counters.threads[t].Claim?
      modifies counters
      ensures Snapshot() == Next(old(Snapshot()), RunDequeue(t))
      ensures old(Steady(Snapshot(), RunDequeue(t))) ==> Valid()
    {
      hide Inv, Tickets.Inv, Tickets.Step;
      if Steady(Snapshot(), RunDequeue(t)) { SubQueueSafety.NextInv(Snapshot(), RunDequeue(t)); }
      if counters.threads[t].Draw? {
        counters.RunDraw(t);
      } else if counters.threads[t].RereadTail? {
        var actual := counters.RunDecide(t);
      } else if counters.threads[t].GiveBack? {
        counters.RunGiveBack(t);
      } else {
        counters.RunLook(t);
      }
    }

    /** Indices are claimed: the thread becomes a reader of them, if there are any. */
    method RunClaim(t: nat)
      requires Valid() && Enabled(Snapshot(), RunDequeue(t)) && counters.threads[t].Claim?
      modifies this, counters
      ensures Snapshot() == Next(old(Snapshot()), RunDequeue(t)) && Valid()
    {
      hide Inv, Tickets.Inv;
      SubQueueSafety.NextInv(Snapshot(), RunDequeue(t));
      SameThreads(Snapshot());
      if counters.threads[t].n > 0 {
        dequeuers := dequeuers[t := LoadIndex];
        output := output[t := []];
      }
      var firstIndex := counters.RunClaim(t);
    }

    /** The readings that lead from the claim to a slot: the block index, its front, a base, a block. */
    method RunLocate(t: nat)
      requires Valid() && Enabled(Snapshot(), RunReader(t))
      requires !dequeuers[t].Take? && !dequeuers[t].SetEmpty?
      modifies this
      ensures Snapshot() == Next(old(Snapshot()), RunReader(t)) && Valid()
    {
      hide Inv, SlotOf, EndIndex;
      ghost var before := Snapshot();
      SubQueueSafety.NextInv(before, RunReader(t));
      LocateFacts(before, t);
      var (first, stop) := ClaimOf(counters.threads[t]);
      match dequeuers[t] {
        case LoadIndex => dequeuers := dequeuers[t := LoadFront(|blockIndices| - 1)];
        case LoadFront(h) => dequeuers := dequeuers[t := LoadBase(h, blockIndices[h].front, blockIndices[h].hi)];
        case LoadBase(h, localBlockIndexHead, _) =>
          dequeuers := dequeuers[t := LoadBlock(h, SlotOf(blockIndices[h], localBlockIndexHead, first), first)];
        case LoadBlock(h, indexIndex, index) =>
          var block := EntryAt(blockIndices[h], indexIndex).block;
          dequeuers := dequeuers[t := Take(h, indexIndex, block, index, index, EndIndex(index, stop))];
      }
    }

    /** *itemFirst++ = move(element), then its destructor. */
    method RunTake(t: nat) returns (element: Option<Item>)
      requires Valid() && Enabled(Snapshot(), RunReader(t)) && dequeuers[t].Take?
      modifies this
      ensures Snapshot() == Next(old(Snapshot()), RunReader(t)) && Valid()
      ensures 0 <= old(dequeuers[t].index) < |log| && element == Some(log[old(dequeuers[t].index)])
    {
      hide Inv;
      ghost var before := Snapshot();
      SubQueueSafety.NextInv(before, RunReader(t));
      assert 0 <= dequeuers[t].index < |log| && t < |output|
             && CellAt(before.mem, dequeuers[t].block, dequeuers[t].index % BLOCK_SIZE) == Some(log[dequeuers[t].index]) by {
        TakeFinds(before, t);
      }
      var Take(h, indexIndex, block, from, index, end) := dequeuers[t];
      var i := index % BLOCK_SIZE;
      element := None;
      if block < |elements| && i < |elements[block]| {
        element := elements[block][i];
        elements := elements[block := elements[block][i := None]];
      }
      output := output[t := output[t] + [element]];
      dequeuers := dequeuers[t := if index + 1 < end then Take(h, indexIndex, block, from, index + 1, end)
                                  else SetEmpty(h, indexIndex, block, from, end, 0)];
    }

    /** One flag of set_many_empty goes up; after the last, on to the next block, or back to the caller. */
    method RunSetEmpty(t: nat) returns (returned: bool)
      requires Valid() && Enabled(Snapshot(), RunReader(t)) && dequeuers[t].SetEmpty?
      modifies this, counters
      ensures |dequeuers| == old(|dequeuers|) && (returned <==> dequeuers[t] == Away)
      ensures Snapshot() == Next(old(Snapshot()), RunReader(t)) && Valid()
    {
      hide Inv, Tickets.Inv;
      ghost var before := Snapshot();
      SubQueueSafety.NextInv(before, RunReader(t));
      LocateFacts(before, t);
      var SetEmpty(h, indexIndex, block, from, end, j) := dequeuers[t];
      var p := BLOCK_SIZE - 1 - from % BLOCK_SIZE - (end - from) + 1 + j;
      if block < |emptyFlags| && 0 <= p < |emptyFlags[block]| {
        emptyFlags := emptyFlags[block := emptyFlags[block][p := true]];
      }
      var (first, stop) := ClaimOf(counters.threads[t]);
      returned := false;
      if j + 1 < end - from {
        dequeuers := dequeuers[t := SetEmpty(h, indexIndex, block, from, end, j + 1)];
      } else if end != stop {
        var size := |blockIndices[h].entries|;
        dequeuers := dequeuers[t := LoadBlock(h, if size > 0 then (indexIndex + 1) % size else 0, end)];
      } else {
        dequeuers := dequeuers[t := Away];
        counters.RunReturn(t);
        returned := true;
      }
    }
  }

  /** first and first + n of a thread's claim. */
  function ClaimOf(p: Tickets.PC): (int, int) { if p.Claimed? then (p.first, p.first + p.n) else (0, 0) }

  lemma SameThreads(s: State)
    requires Inv(s)
    ensures |s.got| == |s.readers| == |s.tk.pc|
  {
    SubQueueSafety.ThreadCounts(s);
  }

  lemma LocateFacts(s: State, t: nat)
    requires Inv(s) && Enabled(s, RunReader(t))
    ensures s.tk.pc[t].Claimed?
    ensures s.readers[t].LoadIndex? || s.readers[t].h < |s.own.headers|
  {
    hide CellsOk, RingOk, LiveOk, HeadersOk, CurrentOk;
    ThreadFacts(s, t);
  }

  lemma TakeFinds(s: State, t: nat)
    requires Inv(s) && Enabled(s, RunReader(t)) && s.readers[t].Take?
    ensures 0 <= s.readers[t].index < |s.log| && t < |s.got|
    ensures CellAt(s.mem, s.readers[t].block, s.readers[t].index % BLOCK_SIZE) == Some(s.log[s.readers[t].index])
  {
    hide Inv;
    SubQueueReaders.TakeFacts(s, t);
    SubQueueReaders.SlotFacts(s, t, s.readers[t].index);
  }
  lemma FullIndex(s: State)
    requires Inv(s) && s.own.headers != [] && s.own.slotsUsed == |Last(s.own).entries|
    ensures 0 <= s.own.front < s.own.slotsUsed
  {
  }
}
