/** One sub-queue of the lock-free queue (`ExplicitProducer`): a producer that fills blocks of 32
    slots, re-uses them in a ring and publishes them in a growing circular index, and any number of
    dequeuers that find the slot of an index they claimed through that index.

    Reads and writes of the producer's private fields ride along with the atomic operation next to
    them.  `&` with a power of two less one is written as the remainder it is. */
module SubQueues {
  import opened Options
  import opened Words
  import Tickets

  const BLOCK_SIZE: int := 32
  const INITIAL_INDEX_SIZE: int := 32

  type Item = int

  datatype Entry = Entry(base: int, block: nat)

  /** A block index.  `front` is the published slot and `entries` the circular array; the rest is
      history: block number m sits in slot m + shift, for the block numbers lo to hi. */
  datatype Header = Header(front: int, entries: seq<Entry>, shift: int, lo: int, hi: int)

  /** Where the producer stands: the name says which shared access comes next. */
  datatype ProducerPC =
    | Resting
    | CheckEmpty(v: Item, alloc: bool, i: nat)   // tailBlock->next->emptyFlags[i]
    | ReadHead(v: Item, alloc: bool)             // headIndex
    | MakeRoom(v: Item, alloc: bool)             // a larger block index, if the present one is full
    | Requisition(v: Item, alloc: bool)          // requisition_block
    | WriteEntry(v: Item)                        // entries[pr_blockIndexFront] := block
    | StoreFront(v: Item)                        // front.store
    | Construct(v: Item)                         // new (slot) T(element)
    | StoreTail(v: Item)                         // tailIndex.store

  /** Where a dequeuer stands once it has claimed indices. */
  datatype Reader =
    | Away
    | LoadIndex                                          // blockIndex
    | LoadFront(h: nat)                                  // header->front
    | LoadBase(h: nat, f: int, k: int)                   // entries[front].base; k is the block number there
    | LoadBlock(h: nat, slot: int, index: int)           // entries[slot].block
    | Take(h: nat, slot: int, block: nat, from: int, index: int, end: int)   // move from the slot, destroy it
    | SetEmpty(h: nat, slot: int, block: nat, from: int, end: int, j: int)   // emptyFlags[.. + j].store(true)

  datatype Memory = Memory(cells: seq<seq<Option<Item>>>, flags: seq<seq<bool>>)

  /** The producer's fields: the ring of blocks, pr_blockIndexSlotsUsed, pr_blockIndexFront, and the
      block indices it has allocated, of which the last is the published one. */
  datatype Producer = Producer(
    pc: ProducerPC, next: seq<nat>, tailBlock: Option<nat>, slotsUsed: nat, front: int, headers: seq<Header>)

  /** `log` and `assign` are history: the elements in the order of their indices, and the block that
      each block number (index / BLOCK_SIZE) was given.  `got` is what a dequeuer has read so far. */
  datatype State = State(
    tk: Tickets.State, mem: Memory, own: Producer, readers: seq<Reader>, got: seq<seq<Option<Item>>>,
    log: seq<Item>, assign: seq<nat>)

  datatype Action =
    | AddBlock                            // the pool or the allocator provides one more block
    | StartEnqueue(v: Item, alloc: bool)  // enqueue, or try_enqueue when alloc is false
    | RunProducer(ok: bool, b: nat)       // ok: an allocation succeeds, with block b
    | StartDequeue(t: nat, max: nat)
    | RunDequeue(t: nat)                  // an operation on the counters
    | RunReader(t: nat)                   // an operation on the blocks

  // ----- memory -----

  function CellAt(m: Memory, b: nat, i: int): Option<Item> {
    if b < |m.cells| && 0 <= i < |m.cells[b]| then m.cells[b][i] else None
  }

  function PutCell(m: Memory, b: nat, i: int, x: Option<Item>): Memory {
    if b < |m.cells| && 0 <= i < |m.cells[b]| then m.(cells := m.cells[b := m.cells[b][i := x]]) else m
  }

  function FlagAt(m: Memory, b: nat, i: int): bool {
    b < |m.flags| && 0 <= i < |m.flags[b]| && m.flags[b][i]
  }

  function PutFlag(m: Memory, b: nat, i: int, x: bool): Memory {
    if b < |m.flags| && 0 <= i < |m.flags[b]| then m.(flags := m.flags[b := m.flags[b][i := x]]) else m
  }

  function ResetEmpty(m: Memory, b: nat): Memory {
    if b < |m.flags| then m.(flags := m.flags[b := seq(BLOCK_SIZE, _ => false)]) else m
  }

  function EntryAt(h: Header, slot: int): Entry {
    if 0 <= slot < |h.entries| then h.entries[slot] else Entry(0, 0)
  }

  function NextOf(p: Producer, b: nat): nat { if b < |p.next| then p.next[b] else b }

  function HeaderAt(s: State, h: nat): Header {
    if h < |s.own.headers| then s.own.headers[h] else Header(0, [], 0, 0, -1)
  }

  function Last(p: Producer): Header
    requires p.headers != []
  {
    p.headers[|p.headers| - 1]
  }

  // the position of the flag of index i in its block: flags are kept in reverse
  function FlagPos(i: int): int { BLOCK_SIZE - 1 - i % BLOCK_SIZE }

  // ----- the producer -----

  function Live(s: State): int { |s.assign| - s.own.slotsUsed }

  predicate Enabled(s: State, a: Action) {
    s.own.headers != [] && |s.readers| == |s.got| == |s.tk.pc| &&
    match a
    case AddBlock => true
    case StartEnqueue(_, _) => s.own.pc == Resting
    case RunProducer(ok, b) =>
      s.own.pc != Resting &&
      // a block nobody uses; distinct blocks take up distinct memory, so they cannot cover 2^63 slots
      (s.own.pc.Requisition? && ok ==>
         b < |s.own.next| && b !in s.assign && (s.own.slotsUsed + 1) * BLOCK_SIZE < HALF)
    case StartDequeue(t, max) => Tickets.Enabled(s.tk, Tickets.Start(t, max))
    case RunDequeue(t) => Tickets.Enabled(s.tk, Tickets.Run(t))
    case RunReader(t) => t < |s.readers| && s.readers[t] != Away
  }

  /** No dequeuer decides on readings that are half a turn old. */
  predicate Steady(s: State, a: Action) { a.RunDequeue? ==> Tickets.Steady(s.tk, Tickets.Run(a.t)) }

  function Next(s: State, a: Action): State
    requires Enabled(s, a)
  {
    match a
    case AddBlock => s.(mem := Memory(s.mem.cells + [seq(BLOCK_SIZE, _ => None)], s.mem.flags + [seq(BLOCK_SIZE, _ => true)]),
                        own := s.own.(next := s.own.next + [0]))
    case StartEnqueue(v, alloc) => s.(own := s.own.(pc := Begin(s, v, alloc)))
    case RunProducer(ok, b) => ProducerStep(s, ok, b)
    case StartDequeue(t, max) => s.(tk := Tickets.Next(s.tk, Tickets.Start(t, max)))
    case RunDequeue(t) => CounterStep(s, t)
    case RunReader(t) => ReaderStep(s, t)
  }

  function Begin(s: State, v: Item, alloc: bool): ProducerPC {
    if s.tk.tail % BLOCK_SIZE != 0 then Construct(v)
    else if s.own.tailBlock.Some? then CheckEmpty(v, alloc, 0)
    else ReadHead(v, alloc)
  }

  function ProducerStep(s: State, ok: bool, b: nat): State
    requires s.own.headers != [] && s.own.pc != Resting
  {
    match s.own.pc
    case CheckEmpty(v, alloc, i) => CheckOne(s, v, alloc, i)
    case ReadHead(v, alloc) => s.(own := s.own.(pc := LeewayFor(s, v, alloc)))
    case MakeRoom(v, alloc) =>
      if s.own.slotsUsed != |Last(s.own).entries| then s.(own := s.own.(pc := Requisition(v, alloc)))
      else if !alloc || !ok then s.(own := s.own.(pc := Resting))
      else Grow(s, v, alloc)
    case Requisition(v, _) => if ok then LinkBlock(s, v, b) else s.(own := s.own.(pc := Resting))
    case WriteEntry(v) => PutEntry(s, v)
    case StoreFront(v) => PublishEntry(s, v)
    case Construct(v) =>
      s.(mem := PutCell(s.mem, s.own.tailBlock.GetOr(0), s.tk.tail % BLOCK_SIZE, Some(v)), own := s.own.(pc := StoreTail(v)))
    case StoreTail(v) =>
      s.(tk := Tickets.Next(s.tk, Tickets.Publish), log := s.log + [v], own := s.own.(pc := Resting))
  }

  /** is_empty reads the flags one by one and stops at the first that is down; when all are up, the
      block ahead is re-used. */
  function CheckOne(s: State, v: Item, alloc: bool, i: nat): State
    requires s.own.headers != []
  {
    var ahead := NextOf(s.own, s.own.tailBlock.GetOr(0));
    if !FlagAt(s.mem, ahead, i) then s.(own := s.own.(pc := ReadHead(v, alloc)))
    else if i + 1 < BLOCK_SIZE then s.(own := s.own.(pc := CheckEmpty(v, alloc, i + 1)))
    else Reuse(s, v, ahead)
  }

  function Reuse(s: State, v: Item, ahead: nat): State
    requires s.own.headers != []
  {
    s.(mem := ResetEmpty(s.mem, ahead), assign := s.assign + [ahead],
       own := s.own.(pc := WriteEntry(v), tailBlock := Some(ahead),
                     headers := s.own.headers[|s.own.headers| - 1 := Last(s.own).(lo := Last(s.own).lo + 1)]))
  }

  function LeewayFor(s: State, v: Item, alloc: bool): ProducerPC {
    if CircularLess(Wrap(Tickets.Head(s.tk)), Wrap(s.tk.tail + BLOCK_SIZE)) then MakeRoom(v, alloc) else Resting
  }

  /** new_block_index: twice the size, the entries in use copied to its start, oldest first. */
  function Grow(s: State, v: Item, alloc: bool): State
    requires s.own.headers != []
  {
    var h := Last(s.own);
    var n := s.own.slotsUsed;
    s.(own := s.own.(pc := Requisition(v, alloc), front := n,
                     headers := s.own.headers + [Header(Wrap(n - 1), Copied(h, s.own.front, n), -Live(s), Live(s), |s.assign| - 1)]))
  }

  function Copied(h: Header, front: int, n: nat): seq<Entry> {
    seq(2 * |h.entries|, j requires 0 <= j < 2 * |h.entries| =>
          if j < n then EntryAt(h, (front - n + j) % |h.entries|) else Entry(0, 0))
  }

  function LinkBlock(s: State, v: Item, b: nat): State {
    s.(mem := ResetEmpty(s.mem, b), assign := s.assign + [b],
       own := s.own.(pc := WriteEntry(v), next := Linked(s.own, b), tailBlock := Some(b), slotsUsed := s.own.slotsUsed + 1))
  }

  function Linked(p: Producer, b: nat): seq<nat> {
    if b >= |p.next| then p.next
    else if p.tailBlock.None? then p.next[b := b]
    else if p.tailBlock.value >= |p.next| then p.next
    else p.next[b := p.next[p.tailBlock.value]][p.tailBlock.value := b]
  }

  function PutEntry(s: State, v: Item): State
    requires s.own.headers != []
  {
    var h := Last(s.own);
    if 0 <= s.own.front < |h.entries| then
      s.(own := s.own.(pc := StoreFront(v), headers := s.own.headers[|s.own.headers| - 1 :=
           h.(entries := h.entries[s.own.front := Entry(Wrap(s.tk.tail), s.own.tailBlock.GetOr(0))])]))
    else s.(own := s.own.(pc := StoreFront(v)))
  }

  function PublishEntry(s: State, v: Item): State
    requires s.own.headers != []
  {
    var h := Last(s.own);
    s.(own := s.own.(pc := Construct(v),
                     front := if |h.entries| > 0 then (s.own.front + 1) % |h.entries| else 0,
                     headers := s.own.headers[|s.own.headers| - 1 := h.(front := s.own.front, hi := h.hi + 1)]))
  }

  // ----- the dequeuers -----

  /** About to claim at least one index.  A call for none has no slot to read. */
  predicate ClaimsSome(p: Tickets.PC) { p.Claim? && p.n > 0 }

  /** An operation on the counters; claiming indices makes the thread a reader of them. */
  function CounterStep(s: State, t: nat): State
    requires Enabled(s, RunDequeue(t))
  {
    var tk' := Tickets.Next(s.tk, Tickets.Run(t));
    if ClaimsSome(s.tk.pc[t])
    then s.(tk := tk', readers := s.readers[t := LoadIndex], got := s.got[t := []])
    else s.(tk := tk')
  }

  function First(s: State, t: nat): int
    requires t < |s.tk.pc|
  {
    if s.tk.pc[t].Claimed? then s.tk.pc[t].first else 0
  }

  function Stop(s: State, t: nat): int
    requires t < |s.tk.pc|
  {
    if s.tk.pc[t].Claimed? then s.tk.pc[t].first + s.tk.pc[t].n else 0
  }

  function ReaderStep(s: State, t: nat): State
    requires Enabled(s, RunReader(t))
  {
    match s.readers[t]
    case Take(h, slot, b, from, index, end) =>
      s.(mem := PutCell(s.mem, b, index % BLOCK_SIZE, None),
         got := s.got[t := s.got[t] + [CellAt(s.mem, b, index % BLOCK_SIZE)]],
         readers := s.readers[t := if index + 1 < end then Take(h, slot, b, from, index + 1, end) else SetEmpty(h, slot, b, from, end, 0)])
    case SetEmpty(h, slot, b, from, end, j) => SetEmptyStep(s, t, h, slot, b, from, end, j)
    case _ => s.(readers := s.readers[t := Locate(s, t)])
  }

  /** The readings that lead from a claim to its first slot. */
  function Locate(s: State, t: nat): Reader
    requires Enabled(s, RunReader(t))
  {
    match s.readers[t]
    case LoadIndex => LoadFront(|s.own.headers| - 1)
    case LoadFront(h) => LoadBase(h, HeaderAt(s, h).front, HeaderAt(s, h).hi)
    case LoadBase(h, f, _) => LoadBlock(h, SlotOf(HeaderAt(s, h), f, First(s, t)), First(s, t))
    case LoadBlock(h, slot, index) =>
      Take(h, slot, EntryAt(HeaderAt(s, h), slot).block, index, index, EndIndex(index, Stop(s, t)))
    case r => r
  }

  /** Signed division truncates. */
  function TruncDiv(a: int, d: int): int
    requires d > 0
  {
    if a >= 0 then a / d else -((-a) / d)
  }

  /** From the slot f and the base stored there to the slot of the block of `index`, in word arithmetic. */
  function SlotOf(h: Header, f: int, index: int): int {
    var blockBaseIndex := Wrap(index - index % BLOCK_SIZE);
    var offset := Wrap(TruncDiv(Signed(Wrap(blockBaseIndex - EntryAt(h, f).base)), BLOCK_SIZE));
    if |h.entries| > 0 then Wrap(f + offset) % |h.entries| else 0
  }

  /** Where the reading of this block stops: at its end, or where the claim ends. */
  function EndIndex(index: int, stop: int): int {
    var endIndex := index - index % BLOCK_SIZE + BLOCK_SIZE;
    if CircularLess(Wrap(stop), Wrap(endIndex)) then stop else endIndex
  }

  /** set_many_empty stores the flags of from .. end in ascending position; after the last, the
      reading goes on with the next block, or the call returns. */
  function SetEmptyStep(s: State, t: nat, h: nat, slot: int, b: nat, from: int, end: int, j: int): State
    requires Enabled(s, RunReader(t))
  {
    var mem' := PutFlag(s.mem, b, BLOCK_SIZE - 1 - from % BLOCK_SIZE - (end - from) + 1 + j, true);
    if j + 1 < end - from then s.(mem := mem', readers := s.readers[t := SetEmpty(h, slot, b, from, end, j + 1)])
    else if end != Stop(s, t) then
      s.(mem := mem', readers := s.readers[t := LoadBlock(h, if |HeaderAt(s, h).entries| > 0 then (slot + 1) % |HeaderAt(s, h).entries| else 0, end)])
    else s.(mem := mem', readers := s.readers[t := Away],
            tk := if s.tk.pc[t].Claimed? then Tickets.Next(s.tk, Tickets.Finish(t)) else s.tk)
  }

  ghost predicate Init(s: State) {
    && Tickets.Init(s.tk)
    && s.mem == Memory([], [])
    && s.own == Producer(Resting, [], None, 0, 0, [Header(Wrap(-1), seq(INITIAL_INDEX_SIZE, _ => Entry(0, 0)), 0, 0, -1)])
    && |s.readers| == |s.got| == |s.tk.pc|
    && (forall t :: 0 <= t < |s.readers| ==> s.readers[t] == Away && s.got[t] == [])
    && s.log == [] && s.assign == []
  }
}
