/** The producer's steps keep the invariant of the sub-queue. */
module SubQueueProducer {
  import opened Options
  import opened Words
  import opened Modular
  import opened SubQueues
  import opened SubQueueInvariant
  import Tickets

  // ----- steps that change the program counter only -----

  /** What the parts of the invariant say of the producer's program counter. */
  ghost predicate PcFits(s: State, pc: ProducerPC) {
    && s.own.headers != []
    && Staged(pc) == None && Published(pc, |s.assign|) == Last(s.own).hi && !pc.StoreFront?
    && TailOk(pc, |s.log|, |s.assign|, s.own.slotsUsed < |Last(s.own).entries|)
    && SeenOk(s.mem, pc, s.assign, Live(s))
  }

  lemma PcKeeps(s: State, pc: ProducerPC)
    requires Inv(s) && Staged(s.own.pc) == None && PcFits(s, pc)
    ensures Inv(s.(own := s.own.(pc := pc)))
  {
    hide CellsOk, RingOk, HeadersOk, LiveOk, FreeOk, MemOk, SeenOk, ReaderOk, Tickets.Inv;
  }

  lemma ProducerFacts(s: State)
    requires Inv(s)
    ensures s.own.headers != [] && |s.log| == s.tk.tail && |s.tk.claims| <= s.tk.tail
    ensures TailOk(s.own.pc, |s.log|, |s.assign|, s.own.slotsUsed < |Last(s.own).entries|)
    ensures Last(s.own).hi == Published(s.own.pc, |s.assign|) && |s.assign| - Live(s) <= |Last(s.own).entries|
    ensures Live(s) * BLOCK_SIZE <= |s.tk.claims|
    ensures s.own.tailBlock == if s.assign == [] then None else Some(s.assign[|s.assign| - 1])
    ensures 0 <= Live(s) <= |s.assign| && (Live(s) == |s.assign| <==> s.assign == [])
  {
    hide CellsOk, HeadersOk, FreeOk, MemOk, SeenOk, ReaderOk, Tickets.Inv;
  }

  lemma BeginKeeps(s: State, v: Item, alloc: bool)
    requires Inv(s) && s.own.pc == Resting && s.own.headers != []
    ensures Inv(s.(own := s.own.(pc := Begin(s, v, alloc))))
  {
    hide Inv;
    ProducerFacts(s);
    PcKeeps(s, Begin(s, v, alloc));
  }

  /** The block ahead of the tail is the oldest that is still in use. */
  lemma AheadIsOldest(s: State)
    requires Inv(s) && s.assign != []
    ensures 0 <= Live(s) < |s.assign| && s.own.tailBlock.Some?
    ensures NextOf(s.own, s.own.tailBlock.GetOr(0)) == s.assign[Live(s)]
  {
    hide CellsOk, HeadersOk, LiveOk, FreeOk, MemOk, SeenOk, ReaderOk, Tickets.Inv;
    assert LinkOk(s.own.next, s.assign, Live(s), |s.assign| - 1);
  }

  lemma SeenOneMore(s: State)
    requires Inv(s) && s.own.pc.CheckEmpty?
    requires FlagAt(s.mem, NextOf(s.own, s.own.tailBlock.GetOr(0)), s.own.pc.i)
    ensures 0 <= Live(s) < |s.assign| && forall j :: 0 <= j <= s.own.pc.i ==> FlagAt(s.mem, s.assign[Live(s)], j)
  {
    hide CellsOk, RingOk, HeadersOk, LiveOk, FreeOk, MemOk, ReaderOk, Tickets.Inv;
    ProducerFacts(s);
    AheadIsOldest(s);
  }

  lemma CheckKeeps(s: State)
    requires Inv(s) && s.own.headers != [] && s.own.pc.CheckEmpty?
    requires FlagAt(s.mem, NextOf(s.own, s.own.tailBlock.GetOr(0)), s.own.pc.i) ==> s.own.pc.i + 1 < BLOCK_SIZE
    ensures Inv(CheckOne(s, s.own.pc.v, s.own.pc.alloc, s.own.pc.i))
  {
    hide Inv;
    ProducerFacts(s);
    var CheckEmpty(v, alloc, i) := s.own.pc;
    if FlagAt(s.mem, NextOf(s.own, s.own.tailBlock.GetOr(0)), i) {
      SeenOneMore(s);
      PcKeeps(s, CheckEmpty(v, alloc, i + 1));
    } else {
      PcKeeps(s, ReadHead(v, alloc));
    }
  }

  lemma ReadHeadKeeps(s: State)
    requires Inv(s) && s.own.headers != [] && s.own.pc.ReadHead?
    ensures Inv(s.(own := s.own.(pc := LeewayFor(s, s.own.pc.v, s.own.pc.alloc))))
  {
    hide Inv;
    ProducerFacts(s);
    PcKeeps(s, LeewayFor(s, s.own.pc.v, s.own.pc.alloc));
  }

  /** No room can be made, or none is needed. */
  lemma NoGrowthKeeps(s: State, pc: ProducerPC)
    requires Inv(s) && s.own.headers != []
    requires s.own.pc.MakeRoom? || s.own.pc.Requisition?
    requires pc == Resting || (pc.Requisition? && s.own.slotsUsed != |Last(s.own).entries|)
    ensures Inv(s.(own := s.own.(pc := pc)))
  {
    hide Inv;
    ProducerFacts(s);
    PcKeeps(s, pc);
  }

  // ----- steps that leave the dequeuers where they are -----

  /** Block indices grow: the sizes and the shifts stay, and what a dequeuer may rely on remains. */
  ghost predicate HeadersFollow(hs: seq<Header>, hs': seq<Header>, blocks: int) {
    && |hs| <= |hs'|
    && (forall h :: 0 <= h < |hs| ==> HeaderFollows(hs[h], hs'[h], blocks))
  }

  ghost predicate HeaderFollows(h: Header, h': Header, blocks: int) {
    |h'.entries| == |h.entries| && h'.shift == h.shift && h.hi <= h'.hi < blocks
  }

  lemma ReaderFollows(hs: seq<Header>, hs': seq<Header>, assign: seq<nat>, assign': seq<nat>, log: seq<Item>, log': seq<Item>,
                      r: Reader, first: int, stop: int, got: seq<Option<Item>>)
    requires ReaderOk(hs, assign, log, r, first, stop, got)
    requires HeadersFollow(hs, hs', |assign'|) && assign <= assign' && log <= log' && |log| <= |assign| * BLOCK_SIZE
    ensures ReaderOk(hs', assign', log', r, first, stop, got)
  {
    if !r.LoadIndex? { assert HeaderFollows(hs[r.h], hs'[r.h], |assign'|); }
  }

  lemma ThreadsFollow(s: State, s': State)
    requires ThreadsOk(s) && s'.readers == s.readers && s'.got == s.got && s'.tk.pc == s.tk.pc && s'.tk.claims == s.tk.claims
    requires HeadersFollow(s.own.headers, s'.own.headers, |s'.assign|)
    requires s.assign <= s'.assign && s.log <= s'.log && |s.log| <= |s.assign| * BLOCK_SIZE
    ensures ThreadsOk(s')
  {
    hide ReaderOk, HeadersFollow;
    forall t | 0 <= t < |s.readers|
      ensures ThreadOk(s'.own.headers, s'.assign, s'.log, s'.tk.pc[t], s'.readers[t], s'.got[t])
    {
      assert ThreadOk(s.own.headers, s.assign, s.log, s.tk.pc[t], s.readers[t], s.got[t]);
      if s.tk.pc[t].Claimed? {
        ReaderFollows(s.own.headers, s'.own.headers, s.assign, s'.assign, s.log, s'.log, s.readers[t],
                      s.tk.pc[t].first, s.tk.pc[t].first + s.tk.pc[t].n, s.got[t]);
      }
    }
  }

  /** A step that changes nothing but the block indices. */
  lemma HeadersKeep(s: State, s': State)
    requires Inv(s) && s' == s.(own := s'.own) && s'.own.next == s.own.next && s'.own.slotsUsed == s.own.slotsUsed
    requires Staged(s.own.pc) == Staged(s'.own.pc) && !s'.own.pc.CheckEmpty?
    requires ProducerOk(s') && HeadersFollow(s.own.headers, s'.own.headers, |s.assign|)
    ensures Inv(s')
  {
    hide CellsOk, RingOk, HeadersOk, LiveOk, FreeOk, MemOk, ReaderOk, Tickets.Inv, HeadersFollow, ThreadsOk;
    ProducerFacts(s);
    ThreadsFollow(s, s');
  }

  // ----- new_block_index -----

  /** The entries are copied, oldest first, to the start of an index twice the size. */
  lemma CopiedHolds(h: Header, front: int, n: nat, live: int, m: int, block: nat)
    requires n > 0 && |h.entries| == n && front == (live + n + h.shift) % n
    requires live <= m < live + n && Holds(h, m, block)
    ensures EntryAt(Header(0, Copied(h, front, n), 0, 0, 0), m - live) == Entry(Wrap(m * BLOCK_SIZE), block)
  {
    ModAdd(live + n + h.shift, m - live - n, n);
    assert (front - n + (m - live)) % n == (m + h.shift) % n;
  }

  lemma Doubled(n: nat)
    requires IsPowerOfTwo(n)
    ensures IsPowerOfTwo(2 * n)
  {
    assert 2 * n / 2 == n;
  }

  lemma GrownOk(h: Header, front: int, n: nat, assign: seq<nat>, live: int)
    requires HeaderOk(h, assign, live) && CurrentOk(h, front, MakeRoom(0, true), assign, live)
    requires |h.entries| == n == |assign| - live && live >= 0
    ensures var h' := Header(Wrap(n - 1), Copied(h, front, n), -live, live, |assign| - 1);
      HeaderOk(h', assign, live) && CurrentOk(h', n, Requisition(0, true), assign, live)
  {
    var h' := Header(Wrap(n - 1), Copied(h, front, n), -live, live, |assign| - 1);
    assert IsPowerOfTwo(n);
    hide IsPowerOfTwo;
    Doubled(n);
    WrapUnique(n - 1, n - 1, 0);
    assert |h'.entries| == 2 * n;
    forall m | h'.lo <= m <= h'.hi ensures Holds(h', m, assign[m]) {
      assert Holds(h, m, assign[m]);
      CopiedHolds(h, front, n, live, m, assign[m]);
      DivModUnique(m - live, 2 * n, 0, m - live);
    }
    DivModUnique(n - 1, 2 * n, 0, n - 1);
    DivModUnique(n, 2 * n, 0, n);
  }

  lemma LastHeader(s: State)
    requires Inv(s) && s.own.headers != []
    ensures HeaderOk(Last(s.own), s.assign, Live(s))
    ensures CurrentOk(Last(s.own), s.own.front, s.own.pc, s.assign, Live(s))
  {
    hide CellsOk, RingOk, LiveOk, FreeOk, MemOk, SeenOk, ReaderOk, Tickets.Inv, HeaderOk;
  }

  lemma GrowKeeps(s: State)
    requires Inv(s) && s.own.headers != [] && s.own.pc.MakeRoom? && s.own.slotsUsed == |Last(s.own).entries|
    ensures Inv(Grow(s, s.own.pc.v, s.own.pc.alloc))
  {
    hide CellsOk, RingOk, LiveOk, FreeOk, MemOk, SeenOk, ReaderOk, Tickets.Inv, HeaderOk;
    var s' := Grow(s, s.own.pc.v, s.own.pc.alloc);
    ProducerFacts(s);
    LastHeader(s);
    GrownOk(Last(s.own), s.own.front, s.own.slotsUsed, s.assign, Live(s));
    forall h | 0 <= h < |s.own.headers| ensures HeaderFollows(s.own.headers[h], s'.own.headers[h], |s.assign|) {
      assert HeaderOk(s.own.headers[h], s.assign, Live(s));
      HeaderIsBelow(s.own.headers[h], s.assign, Live(s));
    }
    assert ProducerOk(s');
    HeadersKeep(s, s');
  }

  lemma HeaderIsBelow(h: Header, assign: seq<nat>, live: int)
    requires HeaderOk(h, assign, live)
    ensures h.hi < |assign|
  {
  }

  // ----- the new block goes on the index -----

  lemma PutOk(h: Header, front: int, pc: ProducerPC, assign: seq<nat>, live: int, v: Item)
    requires pc.WriteEntry? && assign != []
    requires HeaderOk(h, assign, live) && CurrentOk(h, front, pc, assign, live)
    ensures 0 <= front < |h.entries|
    ensures var h' := h.(entries := h.entries[front := Entry(Wrap((|assign| - 1) * BLOCK_SIZE), assign[|assign| - 1])]);
      HeaderOk(h', assign, live) && CurrentOk(h', front, StoreFront(v), assign, live)
  {
    var h' := h.(entries := h.entries[front := Entry(Wrap((|assign| - 1) * BLOCK_SIZE), assign[|assign| - 1])]);
    forall m | h'.lo <= m <= h'.hi ensures Holds(h', m, assign[m]) {
      assert Holds(h, m, assign[m]);
      ModDistinct(m + h.shift, h.hi + 1 + h.shift, |h.entries|);
    }
  }

  /** Replacing the published block index by one that dequeuers can follow. */
  lemma LastFollows(s: State, h': Header)
    requires Inv(s) && s.own.headers != []
    requires HeaderFollows(Last(s.own), h', |s.assign|) && HeaderOk(h', s.assign, Live(s))
    ensures var hs' := s.own.headers[|s.own.headers| - 1 := h'];
      HeadersFollow(s.own.headers, hs', |s.assign|) && HeadersOk(hs', s.assign, Live(s))
  {
    hide CellsOk, RingOk, LiveOk, FreeOk, MemOk, SeenOk, ReaderOk, Tickets.Inv, HeaderOk;
    var hs' := s.own.headers[|s.own.headers| - 1 := h'];
    forall h | 0 <= h < |hs'| ensures HeaderFollows(s.own.headers[h], hs'[h], |s.assign|) {
      assert HeaderOk(s.own.headers[h], s.assign, Live(s));
      HeaderIsBelow(s.own.headers[h], s.assign, Live(s));
    }
  }

  lemma PutEntryKeeps(s: State)
    requires Inv(s) && s.own.headers != [] && s.own.pc.WriteEntry?
    ensures Inv(PutEntry(s, s.own.pc.v))
  {
    hide CellsOk, RingOk, LiveOk, FreeOk, MemOk, SeenOk, ReaderOk, Tickets.Inv, HeaderOk, HeadersOk, HeadersFollow;
    var s' := PutEntry(s, s.own.pc.v);
    ProducerFacts(s);
    LastHeader(s);
    PutOk(Last(s.own), s.own.front, s.own.pc, s.assign, Live(s), s.own.pc.v);
    HeaderIsBelow(Last(s.own), s.assign, Live(s));
    LastFollows(s, Last(s'.own));
    HeadersKeep(s, s');
  }

  lemma PublishOk(h: Header, front: int, pc: ProducerPC, assign: seq<nat>, live: int, v: Item)
    requires pc.StoreFront? && assign != []
    requires HeaderOk(h, assign, live) && CurrentOk(h, front, pc, assign, live)
    ensures var h' := h.(front := front, hi := h.hi + 1);
      HeaderOk(h', assign, live) && CurrentOk(h', (front + 1) % |h.entries|, Construct(v), assign, live)
  {
    ModAdd(h.hi + 1 + h.shift, 1, |h.entries|);
    DivModUnique(front, |h.entries|, 0, front);
    var h' := h.(front := front, hi := h.hi + 1);
    forall m | h'.lo <= m <= h'.hi ensures Holds(h', m, assign[m]) {
      if m <= h.hi { assert Holds(h, m, assign[m]); }
    }
  }

  lemma PublishEntryKeeps(s: State)
    requires Inv(s) && s.own.headers != [] && s.own.pc.StoreFront?
    ensures Inv(PublishEntry(s, s.own.pc.v))
  {
    hide CellsOk, RingOk, LiveOk, FreeOk, MemOk, SeenOk, ReaderOk, Tickets.Inv, HeaderOk, HeadersOk, HeadersFollow;
    var s' := PublishEntry(s, s.own.pc.v);
    ProducerFacts(s);
    LastHeader(s);
    PublishOk(Last(s.own), s.own.front, s.own.pc, s.assign, Live(s), s.own.pc.v);
    LastFollows(s, Last(s'.own));
    HeadersKeep(s, s');
  }

  // ----- the element goes into its slot -----

  lemma PlaceElement(m: Memory, assign: seq<nat>, blocks: nat, i: int, v: Item)
    requires MemOk(m, blocks) && FreeOk(m, assign) && BlockOf(assign, i) < blocks && BlockOf(assign, i) in assign
    ensures var m' := PutCell(m, BlockOf(assign, i), i % BLOCK_SIZE, Some(v));
      MemOk(m', blocks) && FreeOk(m', assign) && OnlySlot(m, m', assign, i) && m'.flags == m.flags
      && CellAt(m', BlockOf(assign, i), i % BLOCK_SIZE) == Some(v)
  {
    var m' := PutCell(m, BlockOf(assign, i), i % BLOCK_SIZE, Some(v));
    forall b, k | 0 <= b < |m'.cells| && b !in assign && 0 <= k < BLOCK_SIZE ensures CellAt(m', b, k) == None {
      assert CellAt(m, b, k) == None;
    }
  }

  /** The slot the producer constructs in is that of the next index, in its latest block. */
  lemma TailSlot(s: State)
    requires Inv(s) && s.own.headers != [] && s.own.pc.Construct?
    ensures s.assign != [] && s.own.tailBlock.GetOr(0) == BlockOf(s.assign, s.tk.tail)
    ensures BlockOf(s.assign, s.tk.tail) < |s.own.next| && BlockOf(s.assign, s.tk.tail) in s.assign
    ensures Live(s) * BLOCK_SIZE <= s.tk.tail < |s.assign| * BLOCK_SIZE
  {
    hide CellsOk, HeadersOk, FreeOk, MemOk, SeenOk, ReaderOk, Tickets.Inv, LiveOk, ThreadsOk;
    ProducerFacts(s);
    assert s.tk.tail / BLOCK_SIZE == |s.assign| - 1;
  }

  lemma TailCell(s: State)
    requires Inv(s) && s.own.headers != [] && s.own.pc.Construct?
    ensures CellOk(s.mem, s.assign, s.log, None, ClaimsOf(s), s.tk.tail)
    ensures Distinct(s.assign, Live(s)) && 0 <= Live(s)
  {
    hide HeadersOk, FreeOk, MemOk, SeenOk, ReaderOk, Tickets.Inv, CellOk, LiveOk, ThreadsOk, CurrentOk;
    TailSlot(s);
  }

  lemma ConstructKeeps(s: State, s': State)
    requires Inv(s) && s.own.headers != [] && s.own.pc.Construct?
    requires s' == s.(mem := PutCell(s.mem, s.own.tailBlock.GetOr(0), s.tk.tail % BLOCK_SIZE, Some(s.own.pc.v)),
                      own := s.own.(pc := StoreTail(s.own.pc.v)))
    ensures Inv(s')
  {
    hide CellsOk, RingOk, HeadersOk, LiveOk, FreeOk, MemOk, ReaderOk, Tickets.Inv, OnlySlot;
    ProducerFacts(s);
    TailSlot(s);
    TailCell(s);
    var i := s.tk.tail;
    PlaceElement(s.mem, s.assign, |s.own.next|, i, s.own.pc.v);
    OneSlot(s.mem, s'.mem, s.assign, Live(s), s.log, None, Staged(s'.own.pc), ClaimsOf(s), ClaimsOf(s'), i);
  }

  lemma PublishedElement(m: Memory, assign: seq<nat>, live: int, log: seq<Item>, v: Item, c: Claims)
    requires CellsOk(m, assign, live, log, Some(v), c) && |c.owner| <= |log| && live >= 0
    ensures CellsOk(m, assign, live, log + [v], None, c)
  {
    forall i | live * BLOCK_SIZE <= i < |assign| * BLOCK_SIZE ensures CellOk(m, assign, log + [v], None, c, i) {
      assert CellOk(m, assign, log, Some(v), c, i);
    }
  }

  lemma StoreTailKeeps(s: State, s': State)
    requires Inv(s) && s.own.headers != [] && s.own.pc.StoreTail?
    requires s' == s.(tk := Tickets.Next(s.tk, Tickets.Publish), log := s.log + [s.own.pc.v], own := s.own.(pc := Resting))
    ensures Inv(s')
  {
    hide CellsOk, RingOk, HeadersOk, LiveOk, FreeOk, MemOk, ReaderOk, Tickets.Inv, HeadersFollow, ThreadsOk;
    ProducerFacts(s);
    Tickets.NextInv(s.tk, Tickets.Publish);
    PublishedElement(s.mem, s.assign, Live(s), s.log, s.own.pc.v, ClaimsOf(s));
    SameHeadersFollow(s);
    ThreadsFollow(s, s');
  }

  lemma SameHeadersFollow(s: State)
    requires Inv(s)
    ensures HeadersFollow(s.own.headers, s.own.headers, |s.assign|)
  {
    hide CellsOk, RingOk, LiveOk, FreeOk, MemOk, SeenOk, ReaderOk, Tickets.Inv, HeaderOk;
    forall h | 0 <= h < |s.own.headers| ensures HeaderFollows(s.own.headers[h], s.own.headers[h], |s.assign|) {
      HeaderIsBelow(s.own.headers[h], s.assign, Live(s));
    }
  }

  // ----- a block for the next indices -----

  ghost predicate NoElements(m: Memory, b: nat) { forall k :: 0 <= k < BLOCK_SIZE ==> CellAt(m, b, k) == None }

  ghost predicate OutOfUse(assign: seq<nat>, live: int, b: nat) {
    forall m :: 0 <= live <= m < |assign| ==> assign[m] != b
  }

  lemma NewBlockCells(m: Memory, b: nat, blocks: nat, assign: seq<nat>, live: int, live': int, log: seq<Item>, c: Claims)
    requires CellsOk(m, assign, live, log, None, c) && MemOk(m, blocks) && b < blocks
    requires 0 <= live <= live' && OutOfUse(assign, live', b) && NoElements(m, b) && |log| == |assign| * BLOCK_SIZE
    ensures CellsOk(ResetEmpty(m, b), assign + [b], live', log, None, c)
  {
    var m', assign' := ResetEmpty(m, b), assign + [b];
    forall i | live' * BLOCK_SIZE <= i < |assign'| * BLOCK_SIZE ensures CellOk(m', assign', log, None, c, i) {
      if i / BLOCK_SIZE < |assign| {
        assert CellOk(m, assign, log, None, c, i);
        assert assign[i / BLOCK_SIZE] != b;
      } else {
        assert CellAt(m, b, i % BLOCK_SIZE) == None;
      }
    }
  }

  lemma ResetFree(m: Memory, b: nat, blocks: nat, assign: seq<nat>)
    requires MemOk(m, blocks) && FreeOk(m, assign)
    ensures MemOk(ResetEmpty(m, b), blocks) && FreeOk(ResetEmpty(m, b), assign + [b])
  {
    var m' := ResetEmpty(m, b);
    forall a, k | 0 <= a < |m'.cells| && a !in assign + [b] && 0 <= k < BLOCK_SIZE ensures CellAt(m', a, k) == None {
      assert CellAt(m, a, k) == None;
    }
  }

  /** Both ways to get a block leave the dequeuers and the log alone. */
  lemma NewBlockKeeps(s: State, s': State, b: nat)
    requires Inv(s) && |s.log| == |s.assign| * BLOCK_SIZE && b < |s.own.next| == |s'.own.next|
    requires s' == s.(mem := ResetEmpty(s.mem, b), assign := s.assign + [b], own := s'.own)
    requires Staged(s.own.pc) == Staged(s'.own.pc) == None && !s'.own.pc.CheckEmpty?
    requires Live(s) <= Live(s') && OutOfUse(s.assign, Live(s'), b) && NoElements(s.mem, b)
    requires ProducerOk(s') && LiveOk(Live(s'), ClaimsOf(s))
    requires HeadersFollow(s.own.headers, s'.own.headers, |s'.assign|)
    ensures Inv(s')
  {
    hide CellsOk, RingOk, HeadersOk, LiveOk, FreeOk, MemOk, ReaderOk, Tickets.Inv, HeadersFollow, ThreadsOk, CurrentOk, TailOk;
    assert 0 <= Live(s) by { ProducerFacts(s); }
    NewBlockCells(s.mem, b, |s.own.next|, s.assign, Live(s), Live(s'), s.log, ClaimsOf(s));
    ResetFree(s.mem, b, |s.own.next|, s.assign);
    ThreadsFollow(s, s');
  }

  // ----- the block ahead is re-used -----

  /** When all the flags of the oldest block are up, all its indices are done and its slots empty. */
  lemma OldestIsDone(s: State, i: int)
    requires Inv(s) && s.own.headers != [] && 0 <= Live(s) < |s.assign| && |s.log| == |s.assign| * BLOCK_SIZE
    requires forall j :: 0 <= j < BLOCK_SIZE ==> FlagAt(s.mem, s.assign[Live(s)], j)
    requires i / BLOCK_SIZE == Live(s)
    ensures Claimer(ClaimsOf(s), i) == Done && 0 <= i < |s.tk.claims|
    ensures CellAt(s.mem, s.assign[Live(s)], i % BLOCK_SIZE) == None
  {
    hide RingOk, HeadersOk, LiveOk, FreeOk, MemOk, ReaderOk, Tickets.Inv, ThreadsOk, CurrentOk;
    assert CellOk(s.mem, s.assign, s.log, Staged(s.own.pc), ClaimsOf(s), i);
    assert FlagAt(s.mem, s.assign[Live(s)], FlagPos(i));
  }

  lemma OldestLeaves(s: State)
    requires Inv(s) && s.own.headers != [] && 0 <= Live(s) < |s.assign| && |s.log| == |s.assign| * BLOCK_SIZE
    requires forall j :: 0 <= j < BLOCK_SIZE ==> FlagAt(s.mem, s.assign[Live(s)], j)
    ensures NoElements(s.mem, s.assign[Live(s)]) && LiveOk(Live(s) + 1, ClaimsOf(s))
  {
    hide Inv, CellsOk;
    var live, c := Live(s), ClaimsOf(s);
    forall k | 0 <= k < BLOCK_SIZE ensures CellAt(s.mem, s.assign[live], k) == None {
      OldestIsDone(s, live * BLOCK_SIZE + k);
    }
    OldestIsDone(s, live * BLOCK_SIZE + BLOCK_SIZE - 1);
    forall i | 0 <= i < |c.owner| && Claimer(c, i) != Done ensures (live + 1) * BLOCK_SIZE <= i {
      LiveFact(s, i);
      if i / BLOCK_SIZE == live { OldestIsDone(s, i); }
    }
  }

  lemma LiveFact(s: State, i: int)
    requires Inv(s) && 0 <= i < |s.tk.claims| && Claimer(ClaimsOf(s), i) != Done
    ensures Live(s) * BLOCK_SIZE <= i
  {
    hide CellsOk, RingOk, HeadersOk, FreeOk, MemOk, ReaderOk, Tickets.Inv, ThreadsOk, CurrentOk;
  }

  lemma ReusedRing(next: seq<nat>, assign: seq<nat>, live: int)
    requires 0 <= live < |assign| && RingOk(next, Some(assign[|assign| - 1]), assign, live)
    ensures RingOk(next, Some(assign[live]), assign + [assign[live]], live + 1)
    ensures OutOfUse(assign, live + 1, assign[live])
  {
    hide InRing, LinkOk;
    var assign', live' := assign + [assign[live]], live + 1;
    forall m | 0 <= m < |assign'| ensures InRing(assign', live + 1, assign'[m]) && assign'[m] < |next| {
      var k := if m < |assign| then m else live;
      assert InRing(assign, live, assign[k]) && assign[k] < |next|;
      ReusedMember(assign, live, assign[k]);
    }
    forall m | live' <= m < |assign'| ensures LinkOk(next, assign', live', m) {
      assert LinkOk(next, assign, live, if m < |assign| then m else live);
      ReusedLink(next, assign, live, m);
    }
  }

  lemma ReusedMember(assign: seq<nat>, live: int, b: nat)
    requires 0 <= live < |assign| && InRing(assign, live, b)
    ensures InRing(assign + [assign[live]], live + 1, b)
  {
    var assign' := assign + [assign[live]];
    var k :| live <= k < |assign| && assign[k] == b;
    if k == live { assert assign'[|assign|] == b; } else { assert assign'[k] == b; }
  }

  lemma ReusedLink(next: seq<nat>, assign: seq<nat>, live: int, m: int)
    requires 0 <= live < |assign| && live + 1 <= m < |assign| + 1
    requires LinkOk(next, assign, live, if m < |assign| then m else live)
    ensures LinkOk(next, assign + [assign[live]], live + 1, m)
  {
  }

  lemma ReusedHeader(h: Header, front: int, pc: ProducerPC, assign: seq<nat>, live: int, v: Item)
    requires HeaderOk(h, assign, live) && CurrentOk(h, front, pc, assign, live) && pc.CheckEmpty? && 0 <= live < |assign|
    ensures var h' := h.(lo := h.lo + 1);
      HeaderOk(h', assign + [assign[live]], live + 1) && CurrentOk(h', front, WriteEntry(v), assign + [assign[live]], live + 1)
  {
    var h', assign' := h.(lo := h.lo + 1), assign + [assign[live]];
    forall m | h'.lo <= m <= h'.hi ensures Holds(h', m, assign'[m]) {
      assert Holds(h, m, assign[m]);
    }
  }

  /** Older block indices need not list more than before. */
  lemma HeadersLonger(hs: seq<Header>, assign: seq<nat>, b: nat, live: int, live': int)
    requires HeadersOk(hs, assign, live) && live <= live'
    ensures HeadersOk(hs, assign + [b], live')
  {
    forall h | 0 <= h < |hs| ensures HeaderOk(hs[h], assign + [b], live') {
      HeaderLonger(hs[h], assign, b, live, live');
    }
  }

  lemma HeaderLonger(h: Header, assign: seq<nat>, b: nat, live: int, live': int)
    requires HeaderOk(h, assign, live) && live <= live'
    ensures HeaderOk(h, assign + [b], live')
  {
    forall m | h.lo <= m <= h.hi ensures Holds(h, m, (assign + [b])[m]) {
      assert Holds(h, m, assign[m]);
    }
  }

  lemma HeadersStay(s: State, hs': seq<Header>, blocks: int)
    requires Inv(s) && |hs'| == |s.own.headers| && |s.assign| <= blocks
    requires forall h :: 0 <= h < |hs'| ==> hs'[h] == s.own.headers[h].(lo := hs'[h].lo)
    ensures HeadersFollow(s.own.headers, hs', blocks)
  {
    hide CellsOk, RingOk, LiveOk, FreeOk, MemOk, SeenOk, ReaderOk, Tickets.Inv, HeaderOk, ThreadsOk, CurrentOk;
    forall h | 0 <= h < |hs'| ensures HeaderFollows(s.own.headers[h], hs'[h], blocks) {
      HeaderIsBelow(s.own.headers[h], s.assign, Live(s));
    }
  }

  lemma ReuseProducer(s: State)
    requires Inv(s) && s.own.headers != [] && s.own.pc.CheckEmpty? && 0 <= Live(s) < |s.assign|
    ensures ProducerOk(Reuse(s, s.own.pc.v, s.assign[Live(s)]))
    ensures OutOfUse(s.assign, Live(s) + 1, s.assign[Live(s)])
  {
    hide CellsOk, RingOk, LiveOk, FreeOk, MemOk, SeenOk, ReaderOk, Tickets.Inv, HeaderOk, ThreadsOk, CurrentOk;
    var live := Live(s);
    ProducerFacts(s);
    LastHeader(s);
    ReusedRing(s.own.next, s.assign, live);
    ReusedHeader(Last(s.own), s.own.front, s.own.pc, s.assign, live, s.own.pc.v);
    HeadersLonger(s.own.headers, s.assign, s.assign[live], live, live + 1);
  }

  lemma ReuseKeeps(s: State)
    requires Inv(s) && s.own.headers != [] && s.own.pc.CheckEmpty? && s.own.pc.i + 1 >= BLOCK_SIZE
    requires FlagAt(s.mem, NextOf(s.own, s.own.tailBlock.GetOr(0)), s.own.pc.i)
    ensures Inv(Reuse(s, s.own.pc.v, NextOf(s.own, s.own.tailBlock.GetOr(0))))
  {
    hide Inv, CellsOk, RingOk, LiveOk, ProducerOk, HeadersFollow, OutOfUse, NoElements;
    ProducerFacts(s);
    AheadIsOldest(s);
    SeenOneMore(s);
    OldestLeaves(s);
    ReuseProducer(s);
    var b := s.assign[Live(s)];
    var s' := Reuse(s, s.own.pc.v, b);
    HeadersStay(s, s'.own.headers, |s'.assign|);
    OldestIsBlock(s);
    NewBlockKeeps(s, s', b);
  }

  lemma OldestIsBlock(s: State)
    requires Inv(s) && 0 <= Live(s) < |s.assign|
    ensures s.assign[Live(s)] < |s.own.next|
  {
    hide CellsOk, LiveOk, FreeOk, MemOk, SeenOk, ReaderOk, Tickets.Inv, HeadersOk, ThreadsOk, CurrentOk;
  }

  // ----- a block from the pool -----

  lemma LinkedRing(p: Producer, assign: seq<nat>, live: int, b: nat)
    requires RingOk(p.next, p.tailBlock, assign, live) && b < |p.next| && b !in assign
    ensures RingOk(Linked(p, b), Some(b), assign + [b], live) && |Linked(p, b)| == |p.next|
  {
    hide InRing, LinkOk;
    var assign', next' := assign + [b], Linked(p, b);
    forall m | 0 <= m < |assign'| ensures InRing(assign', live, assign'[m]) && assign'[m] < |next'| {
      if m < |assign| { assert InRing(assign, live, assign[m]); }
      LinkedMember(assign, live, b, assign'[m]);
    }
    forall m | live <= m < |assign'| ensures LinkOk(next', assign', live, m) {
      if m < |assign| {
        assert LinkOk(p.next, assign, live, m);
        if assign[|assign| - 1] != assign[m] { assert m < |assign| - 1; }
        LinkedAfter(p, assign, live, b, m);
      } else {
        if assign != [] { assert LinkOk(p.next, assign, live, |assign| - 1); }
        LinkedLast(p, assign, live, b);
      }
    }
  }

  lemma LinkedMember(assign: seq<nat>, live: int, b: nat, x: nat)
    requires 0 <= live <= |assign| && (InRing(assign, live, x) || x == b)
    ensures InRing(assign + [b], live, x)
  {
    var assign' := assign + [b];
    if x == b {
      assert assign'[|assign|] == x;
    } else {
      var k :| live <= k < |assign| && assign[k] == x;
      assert assign'[k] == x;
    }
  }

  lemma LinkedAfter(p: Producer, assign: seq<nat>, live: int, b: nat, m: int)
    requires 0 <= live <= m < |assign| && b < |p.next| && b !in assign && LinkOk(p.next, assign, live, m)
    requires p.tailBlock == Some(assign[|assign| - 1]) && p.tailBlock.value < |p.next| && Distinct(assign, live)
    ensures LinkOk(Linked(p, b), assign + [b], live, m)
  {
    var assign' := assign + [b];
    assert assign'[m] == assign[m] && assign[m] != b;
    if m + 1 < |assign| { assert assign[m] != assign[|assign| - 1]; }
  }

  lemma LinkedLast(p: Producer, assign: seq<nat>, live: int, b: nat)
    requires 0 <= live <= |assign| && b < |p.next| && b !in assign && (live == |assign| <==> assign == [])
    requires assign == [] ==> p.tailBlock == None
    requires assign != [] ==> p.tailBlock == Some(assign[|assign| - 1]) && LinkOk(p.next, assign, live, |assign| - 1)
    ensures LinkOk(Linked(p, b), assign + [b], live, |assign|)
  {
    var assign' := assign + [b];
    if assign != [] { assert assign'[live] == assign[live] && assign[|assign| - 1] != b; }
  }

  lemma LinkedHeader(h: Header, front: int, pc: ProducerPC, assign: seq<nat>, live: int, b: nat, v: Item)
    requires HeaderOk(h, assign, live) && CurrentOk(h, front, pc, assign, live) && pc.Requisition?
    requires |assign| - live < |h.entries| && (|assign| - live + 1) * BLOCK_SIZE < HALF
    ensures CurrentOk(h, front, WriteEntry(v), assign + [b], live)
  {
  }

  lemma LinkProducer(s: State, b: nat)
    requires Inv(s) && s.own.headers != [] && s.own.pc.Requisition?
    requires b < |s.own.next| && b !in s.assign && (s.own.slotsUsed + 1) * BLOCK_SIZE < HALF
    ensures ProducerOk(LinkBlock(s, s.own.pc.v, b)) && |LinkBlock(s, s.own.pc.v, b).own.next| == |s.own.next|
  {
    hide CellsOk, RingOk, LiveOk, FreeOk, MemOk, SeenOk, ReaderOk, Tickets.Inv, HeaderOk, ThreadsOk, CurrentOk, Linked;
    var live := Live(s);
    ProducerFacts(s);
    LastHeader(s);
    LinkedRing(s.own, s.assign, live, b);
    LinkedHeader(Last(s.own), s.own.front, s.own.pc, s.assign, live, b, s.own.pc.v);
    HeadersLonger(s.own.headers, s.assign, b, live, live);
  }

  lemma FreeBlock(s: State, b: nat)
    requires Inv(s) && b < |s.own.next| && b !in s.assign
    ensures NoElements(s.mem, b) && OutOfUse(s.assign, Live(s), b)
  {
    hide CellsOk, RingOk, LiveOk, SeenOk, ReaderOk, Tickets.Inv, HeadersOk, ThreadsOk, CurrentOk;
  }

  lemma StillLive(s: State)
    requires Inv(s)
    ensures LiveOk(Live(s), ClaimsOf(s))
  {
    hide CellsOk, RingOk, LiveOk, SeenOk, ReaderOk, Tickets.Inv, HeadersOk, ThreadsOk, CurrentOk;
  }

  lemma LinkKeeps(s: State, b: nat)
    requires Inv(s) && s.own.headers != [] && s.own.pc.Requisition?
    requires b < |s.own.next| && b !in s.assign && (s.own.slotsUsed + 1) * BLOCK_SIZE < HALF
    ensures Inv(LinkBlock(s, s.own.pc.v, b))
  {
    hide Inv, CellsOk, RingOk, LiveOk, ProducerOk, HeadersFollow, OutOfUse, NoElements, Linked;
    var s' := LinkBlock(s, s.own.pc.v, b);
    ProducerFacts(s);
    LinkProducer(s, b);
    FreeBlock(s, b);
    StillLive(s);
    HeadersStay(s, s'.own.headers, |s'.assign|);
    NewBlockKeeps(s, s', b);
  }

  // ----- the pool gets one more block -----

  lemma MoreMemory(m: Memory, assign: seq<nat>, blocks: nat, live: int, log: seq<Item>, staged: Option<Item>, c: Claims)
    requires MemOk(m, blocks) && FreeOk(m, assign) && CellsOk(m, assign, live, log, staged, c) && 0 <= live
    requires forall k :: 0 <= k < |assign| ==> assign[k] < blocks
    ensures var m' := Memory(m.cells + [seq(BLOCK_SIZE, _ => None)], m.flags + [seq(BLOCK_SIZE, _ => true)]);
      MemOk(m', blocks + 1) && FreeOk(m', assign) && CellsOk(m', assign, live, log, staged, c)
  {
    var m' := Memory(m.cells + [seq(BLOCK_SIZE, _ => None)], m.flags + [seq(BLOCK_SIZE, _ => true)]);
    forall i | live * BLOCK_SIZE <= i < |assign| * BLOCK_SIZE ensures CellOk(m', assign, log, staged, c, i) {
      assert CellOk(m, assign, log, staged, c, i);
      assert assign[i / BLOCK_SIZE] < blocks;
    }
    forall b, k | 0 <= b < |m'.cells| && b !in assign && 0 <= k < BLOCK_SIZE ensures CellAt(m', b, k) == None {
      if b < |m.cells| { assert CellAt(m, b, k) == None; }
    }
  }

  lemma MoreRing(next: seq<nat>, tailBlock: Option<nat>, assign: seq<nat>, live: int)
    requires RingOk(next, tailBlock, assign, live)
    ensures RingOk(next + [0], tailBlock, assign, live)
  {
    hide InRing;
    forall m | live <= m < |assign| ensures LinkOk(next + [0], assign, live, m) {
      assert LinkOk(next, assign, live, m);
    }
  }

  lemma AddBlockKeeps(s: State)
    requires Inv(s) && Enabled(s, AddBlock)
    ensures Inv(Next(s, AddBlock))
  {
    hide CellsOk, RingOk, LiveOk, FreeOk, MemOk, ReaderOk, Tickets.Inv, HeadersOk, ThreadsOk, CurrentOk, TailOk;
    var s' := Next(s, AddBlock);
    UsedBlocks(s);
    MoreMemory(s.mem, s.assign, |s.own.next|, Live(s), s.log, Staged(s.own.pc), ClaimsOf(s));
    MoreRing(s.own.next, s.own.tailBlock, s.assign, Live(s));
    SeenStays(s.mem, s'.mem, s.own.pc, s.assign, Live(s));
    assert ThreadsOk(s') by { SameHeadersFollow(s); ThreadsFollow(s, s'); }
  }

  lemma SeenStays(m: Memory, m': Memory, pc: ProducerPC, assign: seq<nat>, live: int)
    requires SeenOk(m, pc, assign, live)
    requires forall b, k :: FlagAt(m, b, k) ==> FlagAt(m', b, k)
    ensures SeenOk(m', pc, assign, live)
  {
  }

  lemma UsedBlocks(s: State)
    requires Inv(s)
    ensures 0 <= Live(s) && forall m :: 0 <= m < |s.assign| ==> s.assign[m] < |s.own.next|
    ensures |s.log| <= |s.assign| * BLOCK_SIZE
  {
    hide CellsOk, LiveOk, FreeOk, MemOk, SeenOk, ReaderOk, Tickets.Inv, HeadersOk, ThreadsOk, CurrentOk;
  }
}
