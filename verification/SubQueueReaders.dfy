/** The dequeuers' steps keep the invariant of the sub-queue. */
module SubQueueReaders {
  import opened Options
  import opened Words
  import opened Modular
  import opened SubQueues
  import opened SubQueueInvariant
  import Tickets

  // ----- reading: steps of a dequeuer that leave memory alone -----

  lemma CellFrame(m: Memory, assign: seq<nat>, live: int, log: seq<Item>, staged: Option<Item>, c: Claims, c': Claims)
    requires CellsOk(m, assign, live, log, staged, c)
    requires forall i :: Claimer(c', i) == Claimer(c, i)
    ensures CellsOk(m, assign, live, log, staged, c')
  {
    forall i | live * BLOCK_SIZE <= i < |assign| * BLOCK_SIZE ensures CellOk(m, assign, log, staged, c', i) {
      assert CellOk(m, assign, log, staged, c, i);
      assert Claimer(c', i) == Claimer(c, i);
    }
  }

  /** A step of thread t's reader (and of nothing else) that changes no phase. */
  lemma LookKeeps(s: State, s': State, t: nat)
    requires Inv(s) && t < |s.readers| && s.tk.pc[t].Claimed?
    requires |s'.readers| == |s.readers| && s' == s.(readers := s.readers[t := s'.readers[t]])
    requires forall i :: PhaseOf(s.tk.pc[t], s.readers[t], i) == PhaseOf(s.tk.pc[t], s'.readers[t], i)
    requires ThreadOk(s.own.headers, s.assign, s.log, s.tk.pc[t], s'.readers[t], s.got[t])
    ensures Inv(s')
  {
    hide CellsOk, RingOk, HeadersOk, CurrentOk, ReaderOk;
    forall i ensures Claimer(ClaimsOf(s'), i) == Claimer(ClaimsOf(s), i) {}
    CellFrame(s.mem, s.assign, Live(s), s.log, Staged(s.own.pc), ClaimsOf(s), ClaimsOf(s'));
  }

  /** The published block index lists the block of every index below the tail. */
  lemma PublishedCovers(pc: ProducerPC, tail: int, blocks: int, room: bool, index: int)
    requires TailOk(pc, tail, blocks, room) && 0 <= index < tail
    ensures index / BLOCK_SIZE <= Published(pc, blocks) < blocks
  {
  }

  lemma LoadIndexReads(hs: seq<Header>, assign: seq<nat>, log: seq<Item>, pc: ProducerPC, room: bool, first: int, stop: int)
    requires ReaderOk(hs, assign, log, LoadIndex, first, stop, [])
    requires hs != [] && TailOk(pc, |log|, |assign|, room) && hs[|hs| - 1].hi == Published(pc, |assign|)
    ensures ReaderOk(hs, assign, log, LoadFront(|hs| - 1), first, stop, [])
  {
    PublishedCovers(pc, |log|, |assign|, room, stop - 1);
  }

  lemma LoadFrontReads(hs: seq<Header>, assign: seq<nat>, log: seq<Item>, h: nat, live: int, first: int, stop: int)
    requires ReaderOk(hs, assign, log, LoadFront(h), first, stop, [])
    requires HeadersOk(hs, assign, live)
    ensures ReaderOk(hs, assign, log, LoadBase(h, hs[h].front, hs[h].hi), first, stop, [])
  {
    assert HeaderOk(hs[h], assign, live);
    DivModUnique(hs[h].front, |hs[h].entries|, 0, hs[h].front);
  }

  lemma LoadBaseReads(hs: seq<Header>, assign: seq<nat>, log: seq<Item>, h: nat, f: int, k: int, live: int, first: int, stop: int)
    requires ReaderOk(hs, assign, log, LoadBase(h, f, k), first, stop, [])
    requires HeadersOk(hs, assign, live) && live * BLOCK_SIZE <= first && (|assign| - live) * BLOCK_SIZE < HALF
    ensures ReaderOk(hs, assign, log, LoadBlock(h, SlotOf(hs[h], f, first), first), first, stop, [])
  {
    assert HeaderOk(hs[h], assign, live);
    assert Holds(hs[h], k, assign[k]);
    WordIsMultiple(|hs[h].entries|);
    SlotArithmetic(hs[h], f, k, first);
  }

  lemma EndIndexInBlock(first: int, index: int, stop: int)
    requires 0 <= first <= index < stop && stop - first < HALF
    ensures InOneBlock(first, index, EndIndex(index, stop), stop)
  {
    hide CircularLess, Wrap;
    CircularLessOnWords(stop, index - index % BLOCK_SIZE + BLOCK_SIZE);
    CircularLessIsExactWithinHalfATurn(stop, index - index % BLOCK_SIZE + BLOCK_SIZE);
  }

  lemma LoadBlockReads(hs: seq<Header>, assign: seq<nat>, log: seq<Item>, h: nat, slot: int, index: int, live: int, first: int, stop: int, got: seq<Option<Item>>)
    requires ReaderOk(hs, assign, log, LoadBlock(h, slot, index), first, stop, got)
    requires HeadersOk(hs, assign, live) && live * BLOCK_SIZE <= index && stop - first < HALF
    ensures ReaderOk(hs, assign, log,
                     Take(h, slot, EntryAt(hs[h], slot).block, index, index, EndIndex(index, stop)), first, stop, got)
  {
    var m := index / BLOCK_SIZE;
    assert HeaderOk(hs[h], assign, live);
    assert live <= m <= (stop - 1) / BLOCK_SIZE;
    assert Holds(hs[h], m, assign[m]);
    EndIndexInBlock(first, index, stop);
  }

  predicate Locating(r: Reader) { r.LoadIndex? || r.LoadFront? || r.LoadBase? || r.LoadBlock? }

  lemma LocateReadsIndex(s: State, t: nat)
    requires Inv(s) && Enabled(s, RunReader(t)) && s.tk.pc[t].Claimed?
    requires s.readers[t].LoadIndex? || s.readers[t].LoadFront?
    ensures ReaderOk(s.own.headers, s.assign, s.log, Locate(s, t), s.tk.pc[t].first, s.tk.pc[t].first + s.tk.pc[t].n, s.got[t])
  {
    hide CellsOk, RingOk, LiveOk;
    ThreadFacts(s, t);
    var first, stop := s.tk.pc[t].first, s.tk.pc[t].first + s.tk.pc[t].n;
    if s.readers[t].LoadIndex? {
      LoadIndexReads(s.own.headers, s.assign, s.log, s.own.pc, s.own.slotsUsed < |Last(s.own).entries|, first, stop);
    } else {
      LoadFrontReads(s.own.headers, s.assign, s.log, s.readers[t].h, Live(s), first, stop);
    }
  }

  lemma LocateReadsBase(s: State, t: nat)
    requires Inv(s) && Enabled(s, RunReader(t)) && s.tk.pc[t].Claimed? && s.readers[t].LoadBase?
    ensures ReaderOk(s.own.headers, s.assign, s.log, Locate(s, t), s.tk.pc[t].first, s.tk.pc[t].first + s.tk.pc[t].n, s.got[t])
  {
    hide CellsOk, RingOk, LiveOk;
    ThreadFacts(s, t);
    PendingIsLive(s, t, s.tk.pc[t].first);
    var r, first, stop := s.readers[t], s.tk.pc[t].first, s.tk.pc[t].first + s.tk.pc[t].n;
    LoadBaseReads(s.own.headers, s.assign, s.log, r.h, r.f, r.k, Live(s), first, stop);
  }

  lemma LocateReadsBlock(s: State, t: nat)
    requires Inv(s) && Enabled(s, RunReader(t)) && s.tk.pc[t].Claimed? && s.readers[t].LoadBlock?
    ensures ReaderOk(s.own.headers, s.assign, s.log, Locate(s, t), s.tk.pc[t].first, s.tk.pc[t].first + s.tk.pc[t].n, s.got[t])
  {
    hide CellsOk, RingOk, LiveOk, HeadersOk, CurrentOk, GotUpTo;
    ThreadFacts(s, t);
    var r, first, stop := s.readers[t], s.tk.pc[t].first, s.tk.pc[t].first + s.tk.pc[t].n;
    PendingIsLive(s, t, r.index);
    LoadBlockReads(s.own.headers, s.assign, s.log, r.h, r.slot, r.index, Live(s), first, stop, s.got[t]);
  }

  lemma LocateKeeps(s: State, t: nat)
    requires Inv(s) && Enabled(s, RunReader(t)) && Locating(s.readers[t])
    ensures Inv(s.(readers := s.readers[t := Locate(s, t)]))
  {
    hide CellsOk, RingOk, LiveOk, HeadersOk, ReaderOk, CurrentOk;
    ThreadFacts(s, t);
    match s.readers[t] {
      case LoadBase(_, _, _) => LocateReadsBase(s, t);
      case LoadBlock(_, _, _) => LocateReadsBlock(s, t);
      case _ => LocateReadsIndex(s, t);
    }
    var r := Locate(s, t);
    forall i ensures PhaseOf(s.tk.pc[t], s.readers[t], i) == PhaseOf(s.tk.pc[t], r, i) {
      if s.readers[t].LoadBase? { assert r.LoadBlock? && r.index == s.tk.pc[t].first; }
    }
    LookKeeps(s, s.(readers := s.readers[t := r]), t);
  }

  /** From any published slot k to the slot of an earlier block number m, through words. */
  lemma SlotArithmetic(h: Header, f: int, k: int, index: int)
    requires |h.entries| > 0 && WORD % |h.entries| == 0
    requires f == (k + h.shift) % |h.entries| && EntryAt(h, f).base == Wrap(k * BLOCK_SIZE)
    requires index / BLOCK_SIZE <= k && (k - index / BLOCK_SIZE) * BLOCK_SIZE < HALF
    ensures SlotOf(h, f, index) == SlotIn(h, index / BLOCK_SIZE)
  {
    var m := index / BLOCK_SIZE;
    SignedOffset(m, k);
    assert Wrap(index - index % BLOCK_SIZE) == Wrap(m * BLOCK_SIZE);
    assert SlotOf(h, f, index) == Wrap(f + Wrap(m - k)) % |h.entries| by {
      WrapLeft(m * BLOCK_SIZE, Wrap(k * BLOCK_SIZE));
    }
    StepBack(m, k, h.shift, |h.entries|);
  }

  /** The signed division of the difference of two base words gives the difference of block numbers. */
  lemma SignedOffset(m: int, k: int)
    requires m <= k && (k - m) * BLOCK_SIZE < HALF
    ensures TruncDiv(Signed(Wrap(Wrap(m * BLOCK_SIZE) - Wrap(k * BLOCK_SIZE))), BLOCK_SIZE) == m - k
  {
    var d := (m - k) * BLOCK_SIZE;
    WrapDifference(m * BLOCK_SIZE, k * BLOCK_SIZE);
    assert Signed(Wrap(d)) == d by {
      if d < 0 { WrapUnique(d, d + WORD, -1); } else { WrapUnique(d, d, 0); }
    }
  }

  lemma WrapLeft(a: int, w: int)
    ensures Wrap(Wrap(a) - w) == Wrap(a - w)
  {
    ModAdd(a, -w, WORD);
  }

  /** Stepping from the slot of k to that of m, around a circle whose size divides the word. */
  lemma StepBack(m: int, k: int, shift: int, size: int)
    requires size > 0 && WORD % size == 0
    ensures Wrap((k + shift) % size + Wrap(m - k)) % size == (m + shift) % size
  {
    var f, offset := (k + shift) % size, Wrap(m - k);
    ModOfMod(f + offset, size, WORD);
    ModOfMod(m - k, size, WORD);
    ModSum(k + shift, offset, m - k, size);
  }

  lemma ModSum(a: int, b: int, c: int, n: int)
    requires n > 0 && b % n == c % n
    ensures (a % n + b) % n == (a + c) % n
  {
    ModAdd(b, a % n, n);
    ModAdd(c, a % n, n);
    ModAdd(a, c, n);
  }

  lemma WrapDifference(a: int, b: int)
    ensures Wrap(Wrap(a) - Wrap(b)) == Wrap(a - b)
  {
    var ka, kb := a / WORD, b / WORD;
    assert a == ka * WORD + Wrap(a) && b == kb * WORD + Wrap(b);
    var d := Wrap(a) - Wrap(b);
    if d >= 0 {
      WrapUnique(a - b, d, ka - kb);
      WrapUnique(d, d, 0);
    } else {
      WrapUnique(a - b, d + WORD, ka - kb - 1);
      WrapUnique(d, d + WORD, -1);
    }
  }

  lemma WordIsMultiple(n: nat)
    requires IsPowerOfTwo(n) && n < HALF
    ensures WORD % n == 0
  {
    WordIsPower();
    PowersDivide(n, WORD);
  }

  lemma Times16(n: nat)
    requires IsPowerOfTwo(n)
    ensures IsPowerOfTwo(16 * n)
  {
    Twice(n);
    Twice(2 * n);
    Twice(4 * n);
    Twice(8 * n);
  }

  lemma Twice(n: nat)
    requires IsPowerOfTwo(n)
    ensures IsPowerOfTwo(2 * n)
  {
    assert 2 * n / 2 == n;
  }

  lemma WordIsPower()
    ensures IsPowerOfTwo(WORD)
  {
    assert IsPowerOfTwo(1);
    Times16(0x1); Times16(0x10); Times16(0x100); Times16(0x1000);
    Times16(0x1_0000); Times16(0x10_0000); Times16(0x100_0000); Times16(0x1000_0000);
    Times16(0x1_0000_0000); Times16(0x10_0000_0000); Times16(0x100_0000_0000); Times16(0x1000_0000_0000);
    Times16(0x1_0000_0000_0000); Times16(0x10_0000_0000_0000); Times16(0x100_0000_0000_0000); Times16(0x1000_0000_0000_0000);
  }

  // ----- steps of a dequeuer that touch a slot -----

  ghost predicate SameClaims(tk: Tickets.State, tk': Tickets.State, t: nat) {
    && Tickets.Inv(tk') && tk'.claims == tk.claims && tk'.tail == tk.tail
    && t < |tk.pc| == |tk'.pc| && tk'.pc == tk.pc[t := tk'.pc[t]]
  }

  /** Thread t read or emptied the slot of index i, one of its own. */
  ghost predicate Touched(s: State, s': State, t: nat, i: int) {
    && t < |s.readers| == |s'.readers| && |s.got| == |s'.got| == |s.readers| == |s.tk.pc|
    && SameClaims(s.tk, s'.tk, t)
    && s' == s.(tk := s'.tk, mem := s'.mem, readers := s.readers[t := s'.readers[t]], got := s.got[t := s'.got[t]])
    && (forall k :: k != i ==> PhaseOf(s'.tk.pc[t], s'.readers[t], k) == PhaseOf(s.tk.pc[t], s.readers[t], k))
    && PhaseOf(s.tk.pc[t], s.readers[t], i) != Done
    && s.tk.pc[t].Claimed? && s.tk.pc[t].first <= i < s.tk.pc[t].first + s.tk.pc[t].n
  }

  lemma OthersKeepTheirPhase(s: State, s': State, t: nat, i: int)
    requires Inv(s) && Touched(s, s', t, i)
    ensures forall k :: k != i ==> Claimer(ClaimsOf(s'), k) == Claimer(ClaimsOf(s), k)
    ensures i < |s.tk.claims| && s.tk.claims[i] == t
    ensures Claimer(ClaimsOf(s'), i) == PhaseOf(s'.tk.pc[t], s'.readers[t], i)
    ensures Claimer(ClaimsOf(s), i) == PhaseOf(s.tk.pc[t], s.readers[t], i)
  {
    hide CellsOk, RingOk, HeadersOk, CurrentOk, ReaderOk, LiveOk;
    assert s.readers[t] != Away;
    ThreadFacts(s, t);
  }

  lemma TouchKeeps(s: State, s': State, t: nat, i: int)
    requires Inv(s) && Touched(s, s', t, i)
    requires MemOk(s'.mem, |s.own.next|) && FreeOk(s'.mem, s.assign) && SeenOk(s'.mem, s.own.pc, s.assign, Live(s))
    requires OnlySlot(s.mem, s'.mem, s.assign, i)
    requires CellOk(s'.mem, s.assign, s.log, Staged(s.own.pc), ClaimsOf(s'), i)
    requires ThreadAt(s', t)
    ensures Inv(s')
  {
    hide CellsOk, HeadersOk, CurrentOk, ReaderOk, OnlySlot, CellOk, SeenOk, FreeOk, MemOk;
    OthersKeepTheirPhase(s, s', t, i);
    assert s.readers[t] != Away;
    PendingIsLive(s, t, i);
    IndexHasBlock(s, i);
    OneSlot(s.mem, s'.mem, s.assign, Live(s), s.log, Staged(s.own.pc), Staged(s.own.pc), ClaimsOf(s), ClaimsOf(s'), i);
  }

  /** An index that has been claimed is below the tail, so its block is there. */
  lemma IndexHasBlock(s: State, i: int)
    requires Inv(s) && 0 <= i < |s.log|
    ensures i < |s.assign| * BLOCK_SIZE && 0 <= Live(s) && Distinct(s.assign, Live(s))
  {
    hide CellsOk, HeadersOk, CurrentOk, LiveOk;
  }

  lemma TakePhases(p: Tickets.PC, r: Reader, r': Reader)
    requires p.Claimed? && r.Take? && p.first <= r.from <= r.index < r.end <= p.first + p.n
    requires r' == if r.index + 1 < r.end then r.(index := r.index + 1) else SetEmpty(r.h, r.slot, r.block, r.from, r.end, 0)
    ensures forall k :: k != r.index ==> PhaseOf(p, r', k) == PhaseOf(p, r, k)
    ensures PhaseOf(p, r, r.index) == Unread && PhaseOf(p, r', r.index) == Taken
  {
  }

  /** What stands in the slot of an index that is its claimer's to read or to empty. */
  lemma SlotFacts(s: State, t: nat, i: int)
    requires Inv(s) && t < |s.readers| && s.readers[t] != Away
    requires s.tk.pc[t].Claimed? && s.tk.pc[t].first <= i < s.tk.pc[t].first + s.tk.pc[t].n
    requires PhaseOf(s.tk.pc[t], s.readers[t], i) != Done
    ensures 0 <= i < |s.log| && Live(s) * BLOCK_SIZE <= i < |s.assign| * BLOCK_SIZE
    ensures BlockOf(s.assign, i) < |s.mem.cells| == |s.own.next|
    ensures !FlagAt(s.mem, BlockOf(s.assign, i), FlagPos(i))
    ensures CellAt(s.mem, BlockOf(s.assign, i), i % BLOCK_SIZE)
            == if PhaseOf(s.tk.pc[t], s.readers[t], i) == Unread then Some(s.log[i]) else None
  {
    hide HeadersOk, CurrentOk, LiveOk, ReaderOk;
    ThreadFacts(s, t);
    PendingIsLive(s, t, i);
    IndexHasBlock(s, i);
    assert CellOk(s.mem, s.assign, s.log, Staged(s.own.pc), ClaimsOf(s), i);
  }

  lemma ClearCell(m: Memory, assign: seq<nat>, blocks: nat, i: int)
    requires MemOk(m, blocks) && FreeOk(m, assign) && BlockOf(assign, i) < blocks
    ensures var m' := PutCell(m, BlockOf(assign, i), i % BLOCK_SIZE, None);
      MemOk(m', blocks) && FreeOk(m', assign) && OnlySlot(m, m', assign, i) && m'.flags == m.flags
      && CellAt(m', BlockOf(assign, i), i % BLOCK_SIZE) == None
  {
    var m' := PutCell(m, BlockOf(assign, i), i % BLOCK_SIZE, None);
    forall b, k | 0 <= b < |m'.cells| && b !in assign && 0 <= k < BLOCK_SIZE ensures CellAt(m', b, k) == None {
      assert CellAt(m, b, k) == None;
    }
  }

  /** The index to be read next is in the block that was looked up. */
  lemma TakeFacts(s: State, t: nat)
    requires Inv(s) && Enabled(s, RunReader(t)) && s.readers[t].Take?
    ensures var r := s.readers[t];
      && s.tk.pc[t].Claimed? && s.tk.pc[t].first <= r.from <= r.index < r.end <= s.tk.pc[t].first + s.tk.pc[t].n
      && r.block == BlockOf(s.assign, r.index) && PhaseOf(s.tk.pc[t], r, r.index) == Unread
  {
    hide CellsOk, RingOk, LiveOk, HeadersOk, CurrentOk, TailOk, GotUpTo, Covers, MemOk, FreeOk, SeenOk, Tickets.Inv;
    ThreadFacts(s, t);
    InBlock(s.readers[t].from, s.readers[t].end, s.readers[t].index);
  }

  lemma TakeReads(hs: seq<Header>, assign: seq<nat>, log: seq<Item>, r: Reader, r': Reader, first: int, stop: int, got: seq<Option<Item>>)
    requires r.Take? && ReaderOk(hs, assign, log, r, first, stop, got)
    requires r' == if r.index + 1 < r.end then r.(index := r.index + 1) else SetEmpty(r.h, r.slot, r.block, r.from, r.end, 0)
    ensures ReaderOk(hs, assign, log, r', first, stop, got + [Some(log[r.index])])
  {
  }

  lemma TakeRead(s: State, t: nat)
    requires Inv(s) && Enabled(s, RunReader(t)) && s.readers[t].Take?
    ensures ThreadAt(ReaderStep(s, t), t)
  {
    hide CellsOk, RingOk, LiveOk, HeadersOk, CurrentOk, TailOk, MemOk, FreeOk, SeenOk, Tickets.Inv, ReaderOk;
    ThreadFacts(s, t);
    TakeFacts(s, t);
    var r := s.readers[t];
    SlotFacts(s, t, r.index);
    TakeReads(s.own.headers, s.assign, s.log, r, ReaderStep(s, t).readers[t], s.tk.pc[t].first, s.tk.pc[t].first + s.tk.pc[t].n, s.got[t]);
  }

  lemma TakeKeeps(s: State, t: nat)
    requires Inv(s) && Enabled(s, RunReader(t)) && s.readers[t].Take?
    ensures Inv(ReaderStep(s, t))
  {
    hide CellsOk, RingOk, LiveOk, HeadersOk, CurrentOk, TailOk, ReaderOk, OnlySlot, MemOk, FreeOk, Tickets.Inv;
    var r, s' := s.readers[t], ReaderStep(s, t);
    TakeFacts(s, t);
    SlotFacts(s, t, r.index);
    TakeRead(s, t);
    TakePhases(s.tk.pc[t], r, s'.readers[t]);
    ClearCell(s.mem, s.assign, |s.own.next|, r.index);
    OthersKeepTheirPhase(s, s', t, r.index);
    TouchKeeps(s, s', t, r.index);
  }

  lemma RaiseFlag(m: Memory, assign: seq<nat>, live: int, blocks: nat, pc: ProducerPC, i: int)
    requires MemOk(m, blocks) && FreeOk(m, assign) && SeenOk(m, pc, assign, live) && BlockOf(assign, i) < blocks
    ensures var m' := PutFlag(m, BlockOf(assign, i), FlagPos(i), true);
      MemOk(m', blocks) && FreeOk(m', assign) && SeenOk(m', pc, assign, live) && OnlySlot(m, m', assign, i)
      && m'.cells == m.cells && FlagAt(m', BlockOf(assign, i), FlagPos(i))
  {
    var m' := PutFlag(m, BlockOf(assign, i), FlagPos(i), true);
    forall b, k | 0 <= b < |m'.cells| && b !in assign && 0 <= k < BLOCK_SIZE ensures CellAt(m', b, k) == None {
      assert CellAt(m, b, k) == None;
    }
    if pc.CheckEmpty? && 0 <= live < |assign| {
      forall j | 0 <= j < pc.i ensures FlagAt(m', assign[live], j) {
        assert FlagAt(m, assign[live], j);
      }
    }
  }

  /** The j-th flag that set_many_empty raises is that of the j-th index from the end. */
  lemma FlagOfIndex(s: State, t: nat)
    requires Inv(s) && Enabled(s, RunReader(t)) && s.readers[t].SetEmpty?
    ensures var r := s.readers[t]; var i := r.end - 1 - r.j;
      && s.tk.pc[t].Claimed? && s.tk.pc[t].first <= r.from <= i < r.end <= s.tk.pc[t].first + s.tk.pc[t].n
      && BLOCK_SIZE - 1 - r.from % BLOCK_SIZE - (r.end - r.from) + 1 + r.j == FlagPos(i)
      && r.block == BlockOf(s.assign, i)
      && PhaseOf(s.tk.pc[t], r, i) == Taken
      && Stop(s, t) == s.tk.pc[t].first + s.tk.pc[t].n
  {
    hide CellsOk, RingOk, LiveOk, HeadersOk, CurrentOk;
    ThreadFacts(s, t);
    var r := s.readers[t];
    InBlock(r.from, r.end, r.end - 1 - r.j);
  }

  lemma InBlock(from: int, end: int, i: int)
    requires 0 <= from <= i < end && (end - 1) / BLOCK_SIZE == from / BLOCK_SIZE
    ensures i / BLOCK_SIZE == from / BLOCK_SIZE && i % BLOCK_SIZE == from % BLOCK_SIZE + (i - from)
  {
  }

  /** Where the reading goes on after a block. */
  lemma NextBlock(hs: seq<Header>, assign: seq<nat>, live: int, log: seq<Item>, r: Reader, first: int, stop: int, got: seq<Option<Item>>)
    requires ReaderOk(hs, assign, log, r, first, stop, got) && r.SetEmpty? && r.end != stop
    requires HeadersOk(hs, assign, live)
    ensures ReaderOk(hs, assign, log, LoadBlock(r.h, (r.slot + 1) % |hs[r.h].entries|, r.end), first, stop, got)
  {
    assert HeaderOk(hs[r.h], assign, live);
    var h, m := hs[r.h], r.from / BLOCK_SIZE;
    assert r.end / BLOCK_SIZE == m + 1;
    ModAdd(m + h.shift, 1, |h.entries|);
  }

  lemma SetEmptyOn(s: State, t: nat)
    requires Inv(s) && Enabled(s, RunReader(t)) && s.readers[t].SetEmpty?
    ensures ThreadAt(ReaderStep(s, t), t)
  {
    hide CellsOk, RingOk, LiveOk, HeadersOk, CurrentOk;
    ThreadFacts(s, t);
    var r, first, stop := s.readers[t], s.tk.pc[t].first, s.tk.pc[t].first + s.tk.pc[t].n;
    if r.j + 1 == r.end - r.from && r.end != stop {
      assert |s.own.headers[r.h].entries| > 0 by { assert HeaderOk(s.own.headers[r.h], s.assign, Live(s)) by { HeaderFact(s, r.h); } }
      NextBlock(s.own.headers, s.assign, Live(s), s.log, r, first, stop, s.got[t]);
    }
  }

  lemma HeaderFact(s: State, h: nat)
    requires Inv(s) && h < |s.own.headers|
    ensures HeaderOk(s.own.headers[h], s.assign, Live(s))
  {
    hide CellsOk, RingOk, LiveOk, CurrentOk;
  }

  lemma SetEmptyPhases(p: Tickets.PC, p': Tickets.PC, r: Reader, r': Reader)
    requires p.Claimed? && r.SetEmpty? && 0 <= r.j < r.end - r.from && p.first <= r.from < r.end <= p.first + p.n
    requires if r.j + 1 < r.end - r.from then p' == p && r' == r.(j := r.j + 1)
             else if r.end != p.first + p.n then p' == p && r'.LoadBlock? && r'.index == r.end
             else p' == Tickets.Idle
    ensures forall k :: k != r.end - 1 - r.j ==> PhaseOf(p', r', k) == PhaseOf(p, r, k)
    ensures PhaseOf(p', r', r.end - 1 - r.j) == Done
  {
  }

  lemma SetEmptyTickets(s: State, t: nat)
    requires Inv(s) && Enabled(s, RunReader(t)) && s.readers[t].SetEmpty?
    ensures SameClaims(s.tk, ReaderStep(s, t).tk, t)
  {
    hide CellsOk, RingOk, LiveOk, HeadersOk, CurrentOk, ReaderOk, Tickets.Inv;
    ThreadFacts(s, t);
    Tickets.NextInv(s.tk, Tickets.Finish(t));
  }

  lemma SetEmptyKeeps(s: State, t: nat)
    requires Inv(s) && Enabled(s, RunReader(t)) && s.readers[t].SetEmpty?
    ensures Inv(ReaderStep(s, t))
  {
    hide CellsOk, RingOk, LiveOk, HeadersOk, CurrentOk, ReaderOk, TailOk, OnlySlot, MemOk, FreeOk, SeenOk, SameClaims, Tickets.Inv;
    var r, s' := s.readers[t], ReaderStep(s, t);
    var i := r.end - 1 - r.j;
    FlagOfIndex(s, t);
    SlotFacts(s, t, i);
    SetEmptyOn(s, t);
    SetEmptyTickets(s, t);
    RaiseFlag(s.mem, s.assign, Live(s), |s.own.next|, s.own.pc, i);
    SetEmptyPhases(s.tk.pc[t], s'.tk.pc[t], r, s'.readers[t]);
    OthersKeepTheirPhase(s, s', t, i);
    TouchKeeps(s, s', t, i);
  }

  /** Every operation of a dequeuer on the blocks. */
  lemma ReaderKeeps(s: State, t: nat)
    requires Inv(s) && Enabled(s, RunReader(t))
    ensures Inv(ReaderStep(s, t))
  {
    hide Inv, Locate;
    match s.readers[t] {
      case Take(_, _, _, _, _, _) => TakeKeeps(s, t);
      case SetEmpty(_, _, _, _, _, _) => SetEmptyKeeps(s, t);
      case _ => LocateKeeps(s, t);
    }
  }

  // ----- operations on the counters -----

  /** Only a thread that has claimed nothing changes, to another such state. */
  lemma CountersKeep(s: State, s': State, t: nat)
    requires Inv(s) && s' == s.(tk := s'.tk) && SameClaims(s.tk, s'.tk, t)
    requires !s.tk.pc[t].Claimed? && !s'.tk.pc[t].Claimed?
    ensures Inv(s')
  {
    hide CellsOk, RingOk, HeadersOk, CurrentOk, ReaderOk, Tickets.Inv;
    forall i ensures Claimer(ClaimsOf(s'), i) == Claimer(ClaimsOf(s), i) {}
    CellFrame(s.mem, s.assign, Live(s), s.log, Staged(s.own.pc), ClaimsOf(s), ClaimsOf(s'));
  }

  lemma StartDequeueKeeps(s: State, t: nat, max: nat)
    requires Inv(s) && Enabled(s, StartDequeue(t, max))
    ensures Inv(Next(s, StartDequeue(t, max)))
  {
    hide CellsOk, RingOk, HeadersOk, CurrentOk, ReaderOk, LiveOk, Tickets.Inv;
    Tickets.NextInv(s.tk, Tickets.Start(t, max));
    CountersKeep(s, Next(s, StartDequeue(t, max)), t);
  }

  lemma DrawKeeps(s: State, t: nat)
    requires Inv(s) && Enabled(s, RunDequeue(t)) && Steady(s, RunDequeue(t)) && !ClaimsSome(s.tk.pc[t])
    ensures Inv(CounterStep(s, t))
  {
    hide CellsOk, RingOk, HeadersOk, CurrentOk, ReaderOk, LiveOk, Tickets.Inv;
    Tickets.NextInv(s.tk, Tickets.Run(t));
    CountersKeep(s, CounterStep(s, t), t);
  }

  lemma ClaimedPhases(s: State, t: nat)
    requires Inv(s) && Enabled(s, RunDequeue(t)) && ClaimsSome(s.tk.pc[t])
    ensures forall i :: Claimer(ClaimsOf(CounterStep(s, t)), i) == Claimer(ClaimsOf(s), i)
  {
    hide CellsOk, RingOk, HeadersOk, CurrentOk, ReaderOk, LiveOk, Tickets.Inv;
    var c, c' := ClaimsOf(s), ClaimsOf(CounterStep(s, t));
    forall i ensures Claimer(c', i) == Claimer(c, i) {
      if 0 <= i < |c.owner| { assert c'.owner[i] == c.owner[i]; }
    }
  }

  lemma ClaimKeeps(s: State, t: nat)
    requires Inv(s) && Enabled(s, RunDequeue(t)) && ClaimsSome(s.tk.pc[t])
    ensures Inv(CounterStep(s, t))
  {
    hide CellsOk, RingOk, HeadersOk, CurrentOk, Tickets.Inv;
    var s' := CounterStep(s, t);
    Tickets.NextInv(s.tk, Tickets.Run(t));
    Tickets.ClaimKeeps(s.tk, t);
    ClaimedPhases(s, t);
    CellFrame(s.mem, s.assign, Live(s), s.log, Staged(s.own.pc), ClaimsOf(s), ClaimsOf(s'));
    assert Tickets.PcOk(s.tk.tickets, s.tk.over, s.tk.claims, t, s.tk.pc[t]) by { TicketFact(s.tk, t); }
    assert ThreadAt(s', t);
  }

  lemma TicketFact(tk: Tickets.State, t: nat)
    requires Tickets.Inv(tk) && t < |tk.pc|
    ensures Tickets.PcOk(tk.tickets, tk.over, tk.claims, t, tk.pc[t])
  {
  }

  /** Every operation of a dequeuer on the counters. */
  lemma CounterKeeps(s: State, t: nat)
    requires Inv(s) && Enabled(s, RunDequeue(t)) && Steady(s, RunDequeue(t))
    ensures Inv(CounterStep(s, t))
  {
    hide Inv;
    if ClaimsSome(s.tk.pc[t]) { ClaimKeeps(s, t); } else { DrawKeeps(s, t); }
  }
}
