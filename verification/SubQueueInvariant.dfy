/** The inductive invariant of every interleaving of the sub-queue's producer and dequeuers.  Each
    part is stated over the parts of the state it speaks of. */
module SubQueueInvariant {
  import opened Options
  import opened Words
  import opened Modular
  import opened SubQueues
  import Tickets

  // ----- the slots -----

  /** What has happened to an index below the head. */
  datatype Phase = Unread | Taken | Done

  /** As its claimer's program counters tell it. */
  function PhaseOf(p: Tickets.PC, r: Reader, i: int): Phase {
    if !p.Claimed? || i < p.first || p.first + p.n <= i then Done
    else match r
      case Away => Done
      case LoadBlock(_, _, index) => if i < index then Done else Unread
      case Take(_, _, _, from, index, _) => if i < from then Done else if i < index then Taken else Unread
      case SetEmpty(_, _, _, from, end, j) =>
        if i < from then Done else if i < end - j then Taken else if i < end then Done else Unread
      case _ => Unread
  }

  /** The dequeuing side: who claimed which index, and where the claimers stand. */
  datatype Claims = Claims(owner: seq<nat>, pc: seq<Tickets.PC>, readers: seq<Reader>)

  function ClaimsOf(s: State): Claims { Claims(s.tk.claims, s.tk.pc, s.readers) }

  function Claimer(c: Claims, i: int): Phase {
    if 0 <= i < |c.owner| && c.owner[i] < |c.pc| && c.owner[i] < |c.readers|
    then PhaseOf(c.pc[c.owner[i]], c.readers[c.owner[i]], i)
    else if i < |c.owner| then Done else Unread
  }

  /** The element under construction. */
  function Staged(p: ProducerPC): Option<Item> { if p.StoreTail? then Some(p.v) else None }

  function BlockOf(assign: seq<nat>, i: int): nat {
    if 0 <= i / BLOCK_SIZE < |assign| then assign[i / BLOCK_SIZE] else 0
  }

  /** The slot of index i and its flag, given what has happened to i. */
  ghost predicate CellOk(m: Memory, assign: seq<nat>, log: seq<Item>, staged: Option<Item>, c: Claims, i: int) {
    var cell, flag := CellAt(m, BlockOf(assign, i), i % BLOCK_SIZE), FlagAt(m, BlockOf(assign, i), FlagPos(i));
    if i >= |log| then !flag && cell == if i == |log| then staged else None
    else match Claimer(c, i)
      case Unread => !flag && i >= 0 && cell == Some(log[i])
      case Taken => !flag && cell == None
      case Done => flag && cell == None
  }

  ghost predicate CellsOk(m: Memory, assign: seq<nat>, live: int, log: seq<Item>, staged: Option<Item>, c: Claims) {
    forall i :: live * BLOCK_SIZE <= i < |assign| * BLOCK_SIZE ==> CellOk(m, assign, log, staged, c, i)
  }

  /** Indices that are not done are in live blocks. */
  ghost predicate LiveOk(live: int, c: Claims) {
    && live * BLOCK_SIZE <= |c.owner|
    && forall i :: 0 <= i < |c.owner| && Claimer(c, i) != Done ==> live * BLOCK_SIZE <= i
  }

  /** Blocks that are not in the ring hold no element. */
  ghost predicate FreeOk(m: Memory, assign: seq<nat>) {
    forall b, k :: 0 <= b < |m.cells| && b !in assign && 0 <= k < BLOCK_SIZE ==> CellAt(m, b, k) == None
  }

  ghost predicate MemOk(m: Memory, blocks: nat) {
    && |m.cells| == |m.flags| == blocks
    && (forall b :: 0 <= b < |m.cells| ==> |m.cells[b]| == BLOCK_SIZE)
    && (forall b :: 0 <= b < |m.flags| ==> |m.flags[b]| == BLOCK_SIZE)
  }

  // ----- the producer -----

  /** The ring: the latest block numbers, from `live` on, are in distinct blocks linked in order, and
      every block ever used is among them. */
  ghost predicate RingOk(next: seq<nat>, tailBlock: Option<nat>, assign: seq<nat>, live: int) {
    && 0 <= live <= |assign| && (live == |assign| <==> assign == [])
    && (forall m :: 0 <= m < |assign| ==> InRing(assign, live, assign[m]) && assign[m] < |next|)
    && Distinct(assign, live)
    && tailBlock == (if assign == [] then None else Some(assign[|assign| - 1]))
    && (forall m :: live <= m < |assign| ==> LinkOk(next, assign, live, m))
  }

  ghost predicate InRing(assign: seq<nat>, live: int, b: nat) {
    exists k :: 0 <= live <= k < |assign| && assign[k] == b
  }

  ghost predicate Distinct(assign: seq<nat>, live: int) {
    forall m, k :: 0 <= live <= m < k < |assign| ==> assign[m] != assign[k]
  }

  ghost predicate LinkOk(next: seq<nat>, assign: seq<nat>, live: int, m: int)
    requires 0 <= live <= m < |assign|
  {
    assign[m] < |next| && next[assign[m]] == Following(assign, live, m)
  }

  function Following(assign: seq<nat>, live: int, m: int): nat
    requires 0 <= live <= m < |assign|
  {
    if m + 1 < |assign| then assign[m + 1] else assign[live]
  }

  /** How far the producer has got with the block of the next index. */
  ghost predicate TailOk(pc: ProducerPC, tail: int, blocks: int, room: bool) {
    match pc
    case Resting => (blocks - 1) * BLOCK_SIZE < tail <= blocks * BLOCK_SIZE
    case CheckEmpty(_, _, i) => tail == blocks * BLOCK_SIZE && blocks > 0 && i < BLOCK_SIZE
    case ReadHead(_, _) => tail == blocks * BLOCK_SIZE
    case MakeRoom(_, _) => tail == blocks * BLOCK_SIZE
    case Requisition(_, _) => tail == blocks * BLOCK_SIZE && room
    case WriteEntry(_) => tail == (blocks - 1) * BLOCK_SIZE
    case StoreFront(_) => tail == (blocks - 1) * BLOCK_SIZE
    case Construct(_) => (blocks - 1) * BLOCK_SIZE <= tail < blocks * BLOCK_SIZE
    case StoreTail(_) => (blocks - 1) * BLOCK_SIZE <= tail < blocks * BLOCK_SIZE
  }

  /** Flags that is_empty has seen up stay up: only dequeuers write them, and only to raise them. */
  ghost predicate SeenOk(m: Memory, pc: ProducerPC, assign: seq<nat>, live: int) {
    pc.CheckEmpty? && 0 <= live < |assign| ==> forall j :: 0 <= j < pc.i ==> FlagAt(m, assign[live], j)
  }

  // ----- the block indices -----

  ghost predicate HeaderOk(h: Header, assign: seq<nat>, live: int) {
    && IsPowerOfTwo(|h.entries|) && |h.entries| < HALF
    && 0 <= h.lo <= live && h.lo <= h.hi + 1 && -1 <= h.hi < |assign| && h.hi - h.lo < |h.entries|
    && h.front % |h.entries| == (h.hi + h.shift) % |h.entries|
    && (h.hi >= 0 ==> 0 <= h.front < |h.entries|)
    && (forall m :: h.lo <= m <= h.hi ==> Holds(h, m, assign[m]))
  }

  /** The slot of block number m tells where it is. */
  ghost predicate Holds(h: Header, m: int, block: nat)
    requires |h.entries| > 0
  {
    EntryAt(h, (m + h.shift) % |h.entries|) == Entry(Wrap(m * BLOCK_SIZE), block)
  }

  /** The latest block number that the block index shows. */
  function Published(pc: ProducerPC, blocks: int): int {
    if pc.WriteEntry? || pc.StoreFront? then blocks - 2 else blocks - 1
  }

  ghost predicate HeadersOk(hs: seq<Header>, assign: seq<nat>, live: int) {
    forall h :: 0 <= h < |hs| ==> HeaderOk(hs[h], assign, live)
  }

  ghost predicate CurrentOk(h: Header, front: int, pc: ProducerPC, assign: seq<nat>, live: int) {
    && |h.entries| > 0
    && h.lo == live && h.hi == Published(pc, |assign|)
    && front == (h.hi + 1 + h.shift) % |h.entries|
    && |assign| - live <= |h.entries| && (|assign| - live) * BLOCK_SIZE < HALF
    && (pc.StoreFront? && assign != [] ==> Holds(h, |assign| - 1, assign[|assign| - 1]))
  }

  // ----- the dequeuers -----

  ghost predicate ReaderOk(hs: seq<Header>, assign: seq<nat>, log: seq<Item>, r: Reader, first: int, stop: int, got: seq<Option<Item>>) {
    && 0 <= first < stop <= |log|
    && (r.LoadIndex? || r.LoadFront? || r.LoadBase? ==> got == [])
    && (!r.LoadIndex? ==> !r.Away? && Covers(hs, assign, r.h, stop))
    && (r.LoadBase? ==> (stop - 1) / BLOCK_SIZE <= r.k <= hs[r.h].hi && r.f == SlotIn(hs[r.h], r.k))
    && (r.LoadBlock? ==>
          && first <= r.index < stop && (r.index == first || r.index % BLOCK_SIZE == 0)
          && r.slot == SlotIn(hs[r.h], r.index / BLOCK_SIZE) && GotUpTo(log, got, first, r.index))
    && (r.Take? || r.SetEmpty? ==>
          && InOneBlock(first, r.from, r.end, stop) && r.slot == SlotIn(hs[r.h], r.from / BLOCK_SIZE)
          && r.block == BlockOf(assign, r.from))
    && (r.Take? ==> r.from <= r.index < r.end && GotUpTo(log, got, first, r.index))
    && (r.SetEmpty? ==> 0 <= r.j < r.end - r.from && GotUpTo(log, got, first, r.end))
  }

  function SlotIn(h: Header, m: int): int { if |h.entries| > 0 then (m + h.shift) % |h.entries| else 0 }

  /** The index was loaded after the claim, so it lists every block of the claim. */
  ghost predicate Covers(hs: seq<Header>, assign: seq<nat>, h: nat, stop: int) {
    h < |hs| && (stop - 1) / BLOCK_SIZE <= hs[h].hi < |assign|
  }

  predicate InOneBlock(first: int, from: int, end: int, stop: int) {
    && 0 <= first <= from < end <= stop && (end - 1) / BLOCK_SIZE == from / BLOCK_SIZE
    && (end == stop || end % BLOCK_SIZE == 0)
  }

  /** What has been read is what was enqueued at those indices. */
  ghost predicate GotUpTo(log: seq<Item>, got: seq<Option<Item>>, first: int, index: int) {
    && 0 <= first <= index <= |log| && |got| == index - first
    && forall k :: 0 <= k < |got| ==> got[k] == Some(log[first + k])
  }

  ghost predicate ThreadOk(hs: seq<Header>, assign: seq<nat>, log: seq<Item>, p: Tickets.PC, r: Reader, got: seq<Option<Item>>) {
    if p.Claimed? then ReaderOk(hs, assign, log, r, p.first, p.first + p.n, got) else r == Away
  }

  ghost predicate ThreadAt(s: State, t: nat) {
    && t < |s.readers| == |s.got| == |s.tk.pc|
    && ThreadOk(s.own.headers, s.assign, s.log, s.tk.pc[t], s.readers[t], s.got[t])
  }

  ghost predicate ThreadsOk(s: State) {
    && |s.readers| == |s.got| == |s.tk.pc|
    && (forall t :: 0 <= t < |s.readers| ==> ThreadOk(s.own.headers, s.assign, s.log, s.tk.pc[t], s.readers[t], s.got[t]))
    && (forall i :: 0 <= i < |s.tk.claims| ==> s.tk.claims[i] < |s.tk.pc|)
  }

  ghost predicate ProducerOk(s: State) {
    && RingOk(s.own.next, s.own.tailBlock, s.assign, Live(s))
    && s.own.headers != []
    && HeadersOk(s.own.headers, s.assign, Live(s))
    && CurrentOk(Last(s.own), s.own.front, s.own.pc, s.assign, Live(s))
    && TailOk(s.own.pc, |s.log|, |s.assign|, s.own.slotsUsed < |Last(s.own).entries|)
  }

  ghost predicate Inv(s: State) {
    && Tickets.Inv(s.tk) && |s.tk.claims| <= s.tk.tail == |s.log|
    && MemOk(s.mem, |s.own.next|) && FreeOk(s.mem, s.assign)
    && SeenOk(s.mem, s.own.pc, s.assign, Live(s))
    && ProducerOk(s)
    && CellsOk(s.mem, s.assign, Live(s), s.log, Staged(s.own.pc), ClaimsOf(s))
    && LiveOk(Live(s), ClaimsOf(s))
    && ThreadsOk(s)
  }

  lemma PowersOfTwo()
    ensures IsPowerOfTwo(INITIAL_INDEX_SIZE) && WORD % INITIAL_INDEX_SIZE == 0
  {
    assert IsPowerOfTwo(1) && IsPowerOfTwo(2) && IsPowerOfTwo(4) && IsPowerOfTwo(8) && IsPowerOfTwo(16);
  }

  lemma InitHeader(h: Header)
    requires h == Header(Wrap(-1), seq(INITIAL_INDEX_SIZE, _ => Entry(0, 0)), 0, 0, -1)
    ensures HeaderOk(h, [], 0) && CurrentOk(h, 0, Resting, [], 0)
  {
    PowersOfTwo();
    ModOfMod(-1, INITIAL_INDEX_SIZE, WORD);
  }

  lemma InitInv(s: State)
    requires Init(s)
    ensures Inv(s)
  {
    hide HeaderOk, CurrentOk;
    Tickets.InitInv(s.tk);
    InitHeader(Last(s.own));
    assert ProducerOk(s);
  }

  // ----- first consequences -----

  lemma ThreadFacts(s: State, t: nat)
    requires Inv(s) && t < |s.readers| && s.readers[t] != Away
    ensures s.tk.pc[t].Claimed? && s.tk.pc[t].first + s.tk.pc[t].n <= |s.log| && 0 < s.tk.pc[t].n < HALF
    ensures ReaderOk(s.own.headers, s.assign, s.log, s.readers[t], s.tk.pc[t].first, s.tk.pc[t].first + s.tk.pc[t].n, s.got[t])
    ensures forall i :: s.tk.pc[t].first <= i < s.tk.pc[t].first + s.tk.pc[t].n ==> i < |s.tk.claims| && s.tk.claims[i] == t
  {
    assert ThreadOk(s.own.headers, s.assign, s.log, s.tk.pc[t], s.readers[t], s.got[t]);
    assert Tickets.PcOk(s.tk.tickets, s.tk.over, s.tk.claims, t, s.tk.pc[t]);
  }

  /** An index its claimer has not finished with is in a live block. */
  lemma PendingIsLive(s: State, t: nat, i: int)
    requires Inv(s) && t < |s.readers| && s.readers[t] != Away
    requires s.tk.pc[t].Claimed? && s.tk.pc[t].first <= i < s.tk.pc[t].first + s.tk.pc[t].n
    requires PhaseOf(s.tk.pc[t], s.readers[t], i) != Done
    ensures Live(s) * BLOCK_SIZE <= i && Claimer(ClaimsOf(s), i) == PhaseOf(s.tk.pc[t], s.readers[t], i)
  {
    ThreadFacts(s, t);
    assert Claimer(ClaimsOf(s), i) != Done;
  }

  // ----- one slot changes -----

  /** Different indices of live blocks have different slots. */
  lemma SlotsAreDistinct(assign: seq<nat>, live: int, i: int, k: int)
    requires 0 <= live && Distinct(assign, live) && i != k
    requires live * BLOCK_SIZE <= i < |assign| * BLOCK_SIZE && live * BLOCK_SIZE <= k < |assign| * BLOCK_SIZE
    ensures BlockOf(assign, i) != BlockOf(assign, k) || (i % BLOCK_SIZE != k % BLOCK_SIZE && FlagPos(i) != FlagPos(k))
  {
    var a, b := i / BLOCK_SIZE, k / BLOCK_SIZE;
    if a < b { assert assign[a] != assign[b]; }
    if b < a { assert assign[b] != assign[a]; }
  }

  /** Memory m' is m but for the slot and the flag of index i. */
  ghost predicate OnlySlot(m: Memory, m': Memory, assign: seq<nat>, i: int) {
    && (forall b, k :: !(b == BlockOf(assign, i) && k == i % BLOCK_SIZE) ==> CellAt(m', b, k) == CellAt(m, b, k))
    && (forall b, k :: !(b == BlockOf(assign, i) && k == FlagPos(i)) ==> FlagAt(m', b, k) == FlagAt(m, b, k))
  }

  /** The slot of index i and what is known of i change; all other indices are as before. */
  lemma OneSlot(m: Memory, m': Memory, assign: seq<nat>, live: int, log: seq<Item>, staged: Option<Item>, staged': Option<Item>,
                c: Claims, c': Claims, i: int)
    requires CellsOk(m, assign, live, log, staged, c)
    requires 0 <= live && Distinct(assign, live) && live * BLOCK_SIZE <= i < |assign| * BLOCK_SIZE
    requires OnlySlot(m, m', assign, i)
    requires staged == staged' || i == |log|
    requires forall k :: k != i ==> Claimer(c', k) == Claimer(c, k)
    requires CellOk(m', assign, log, staged', c', i)
    ensures CellsOk(m', assign, live, log, staged', c')
  {
    forall k | live * BLOCK_SIZE <= k < |assign| * BLOCK_SIZE ensures CellOk(m', assign, log, staged', c', k) {
      if k != i {
        assert CellOk(m, assign, log, staged, c, k);
        SlotsAreDistinct(assign, live, i, k);
      }
    }
  }
}
