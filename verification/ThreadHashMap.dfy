/** The thread-id table is a map: a live thread always finds the producer it was first bound to, and no
    two threads share one. */
module ThreadHashMap {
  import opened Options
  import opened ThreadHashes

  // ----- one table -----

  ghost predicate NoId(table: seq<Slot>, t: nat) { forall i :: 0 <= i < |table| ==> table[i].key != Id(t) }

  /** The first d slots that thread t probes have been seen in use, and not by t. */
  ghost predicate Passed(table: seq<Slot>, hash: nat, t: nat, d: nat) {
    forall k :: 0 <= k < d ==> At(table, hash, k) != Empty && At(table, hash, k) != Id(t)
  }

  ghost predicate InUse(table: seq<Slot>, hash: nat, d: nat) { forall k :: 0 <= k < d ==> At(table, hash, k) != Empty }

  /** A thread's id is found by probing: no slot before it is empty. */
  ghost predicate Found(table: seq<Slot>, hash: nat, t: nat) {
    table != [] && exists d: nat :: At(table, hash, d) == Id(t) && InUse(table, hash, d)
  }

  ghost predicate OneSlot(table: seq<Slot>) {
    forall i, j :: 0 <= i < j < |table| && table[i].key.Id? ==> table[i].key != table[j].key
  }

  /** A search that reaches an empty slot has not overlooked the id. */
  lemma SearchIsComplete(table: seq<Slot>, hash: nat, t: nat, d: nat)
    requires Passed(table, hash, t, d) && At(table, hash, d) == Empty
    ensures !Found(table, hash, t)
  {
    forall k: nat ensures !(At(table, hash, k) == Id(t) && InUse(table, hash, k)) {
      if k < d { assert At(table, hash, k) != Id(t); }
    }
  }

  // ----- the invariant -----

  /** The entries of a table are of threads that are bound to their values and can be found. */
  ghost predicate TableOk(table: seq<Slot>, hash: seq<nat>, threads: seq<Thread>) {
    && table != [] && |hash| == |threads| && OneSlot(table)
    && forall i :: 0 <= i < |table| && table[i].key.Id? ==> EntryOk(table, hash, threads, table[i])
  }

  ghost predicate EntryOk(table: seq<Slot>, hash: seq<nat>, threads: seq<Thread>, slot: Slot)
    requires slot.key.Id?
  {
    slot.key.t < |threads| == |hash| && threads[slot.key.t].bound == Some(slot.value) && Found(table, hash[slot.key.t], slot.key.t)
  }

  ghost predicate TablesOk(s: State) {
    s.tables != [] && |s.hash| == |s.threads| && forall h :: 0 <= h < |s.tables| ==> TableOk(s.tables[h], s.hash, s.threads)
  }

  ghost predicate NoneAbove(tables: seq<seq<Slot>>, h: int, t: nat) { forall k :: 0 <= k < |tables| && h < k ==> NoId(tables[k], t) }

  ghost predicate Somewhere(tables: seq<seq<Slot>>, t: nat) { exists h :: 0 <= h < |tables| && !NoId(tables[h], t) }

  predicate Leaving(pc: PC) { pc.Erase? || pc.Retire? || pc.Dead? }

  /** Has drawn a number and is not bound yet. */
  predicate Joining(pc: PC) {
    pc.CountUp? || pc.Check? || pc.Grow? || pc.Unlock? || pc.Room? || pc.Recycle? || pc.TryTomb? || pc.TryEmpty?
  }

  ghost predicate PcOk(tables: seq<seq<Slot>>, hash: nat, t: nat, th: Thread) {
    var pc := th.pc;
    && (pc.Probe? ==> pc.h <= pc.main < |tables| && NoneAbove(tables, pc.h, t) && Passed(tables[pc.h], hash, t, pc.d))
    && (pc.CopyTo? ==> pc.main < |tables| && th.bound == Some(pc.value) && InUse(tables[pc.main], hash, pc.d)
                       && NoneAbove(tables, pc.main - 1, t))
    && (Joining(pc) || pc.GiveUp? || pc.ClearLock? || pc.Dead? ==> th.bound == None)
    && (pc.CountUp? || pc.Check? || pc.Unlock? || pc.Room? || pc.Recycle? || pc.TryTomb? || pc.TryEmpty? ==> pc.main < |tables|)
    && (pc.TryTomb? || pc.TryEmpty? ==> InUse(tables[pc.main], hash, pc.d))
    && (pc.Uncount? ==> th.bound.Some? && th.result == th.bound)
    && (pc.Erase? ==> th.bound.Some? && pc.h < |tables| && NoneAbove(tables, pc.h, t) && Passed(tables[pc.h], hash, t, pc.d))
    && (pc.Retire? ==> th.bound.Some? && NoneAbove(tables, -1, t))
    && (th.bound.Some? && !Leaving(pc) ==> Somewhere(tables, t))
    && (th.result.Some? ==> th.result == th.bound)
  }

  ghost predicate PcsOk(s: State) {
    |s.hash| == |s.threads| && forall t :: 0 <= t < |s.threads| ==> PcOk(s.tables, s.hash[t], t, s.threads[t])
  }

  /** The producer a thread owns: the one it is bound to, or is about to be. */
  function Owned(th: Thread): Option<nat> {
    if th.pc.TryTomb? || th.pc.TryEmpty? then Some(th.pc.p) else th.bound
  }

  ghost predicate OwnersOk(threads: seq<Thread>, inactive: seq<bool>) {
    && (forall t :: 0 <= t < |threads| && Owned(threads[t]).Some? ==>
          Owned(threads[t]).value < |inactive| && !inactive[Owned(threads[t]).value])
    && (forall t, u :: 0 <= t < u < |threads| && Owned(threads[t]).Some? ==> Owned(threads[t]) != Owned(threads[u]))
  }

  ghost predicate Inv(s: State) {
    TablesOk(s) && PcsOk(s) && OwnersOk(s.threads, s.inactive)
  }

  lemma InitInv(s: State)
    requires Init(s)
    ensures Inv(s)
  {
  }

  // ----- changing one slot -----

  /** What one thread's write leaves true for another thread u. */
  ghost predicate Kept(table: seq<Slot>, table': seq<Slot>, u: nat) {
    && |table| == |table'|
    && (forall i :: 0 <= i < |table| && table[i].key != Empty ==> table'[i].key != Empty)
    && (forall i :: 0 <= i < |table| ==> (table'[i].key == Id(u) <==> table[i].key == Id(u)))
    && (forall i :: 0 <= i < |table| && table[i].key == Id(u) ==> table'[i] == table[i])
  }

  lemma KeptSlot(table: seq<Slot>, table': seq<Slot>, u: nat, hash: nat, k: nat)
    requires Kept(table, table', u)
    ensures At(table, hash, k) != Empty ==> At(table', hash, k) != Empty
    ensures At(table, hash, k) == Id(u) <==> At(table', hash, k) == Id(u)
  {
  }

  lemma KeptAt(table: seq<Slot>, table': seq<Slot>, u: nat, hash: nat, d: nat)
    requires Kept(table, table', u)
    ensures InUse(table, hash, d) ==> InUse(table', hash, d)
    ensures Passed(table, hash, u, d) ==> Passed(table', hash, u, d)
    ensures NoId(table, u) <==> NoId(table', u)
    ensures Found(table, hash, u) ==> Found(table', hash, u)
  {
    hide Kept, At;
    forall k: nat ensures (At(table, hash, k) != Empty ==> At(table', hash, k) != Empty)
                          && (At(table, hash, k) == Id(u) <==> At(table', hash, k) == Id(u)) {
      KeptSlot(table, table', u, hash, k);
    }
    assert NoId(table, u) <==> NoId(table', u) by { SameIds(table, table', u); }
    assert |table| == |table'| by { SameIds(table, table', u); }
    if Found(table, hash, u) {
      var k: nat :| At(table, hash, k) == Id(u) && InUse(table, hash, k);
      assert At(table', hash, k) == Id(u) && InUse(table', hash, k);
    }
  }

  lemma SameIds(table: seq<Slot>, table': seq<Slot>, u: nat)
    requires Kept(table, table', u)
    ensures NoId(table, u) <==> NoId(table', u)
    ensures |table| == |table'|
  {
  }

  /** Thread t writes its slot d of table h: its id into a slot that is free, or a tombstone over its id. */
  ghost predicate Writes(s: State, t: nat, h: nat, d: nat, x: Slot) {
    && t < |s.threads| == |s.hash| && h < |s.tables| && s.tables[h] != []
    && var k := At(s.tables[h], s.hash[t], d);
       if x.key == Id(t) then !k.Id? else x.key == Tomb && k == Id(t)
  }

  lemma WriteKeeps(s: State, t: nat, h: nat, d: nat, x: Slot, u: nat)
    requires Writes(s, t, h, d, x) && u != t
    ensures forall k :: 0 <= k < |s.tables| ==> Kept(s.tables[k], Put(s.tables, h, s.hash[t], d, x)[k], u)
  {
  }

  lemma OtherPcKept(tables: seq<seq<Slot>>, tables': seq<seq<Slot>>, hash: nat, u: nat, th: Thread)
    requires PcOk(tables, hash, u, th) && |tables| == |tables'|
    requires forall k :: 0 <= k < |tables| ==> Kept(tables[k], tables'[k], u)
    ensures PcOk(tables', hash, u, th)
  {
    forall k | 0 <= k < |tables| ensures NoId(tables[k], u) <==> NoId(tables'[k], u) { KeptAt(tables[k], tables'[k], u, hash, 0); }
    var pc := th.pc;
    if pc.Probe? || pc.Erase? { KeptAt(tables[pc.h], tables'[pc.h], u, hash, pc.d); }
    if pc.CopyTo? || pc.TryTomb? || pc.TryEmpty? { KeptAt(tables[pc.main], tables'[pc.main], u, hash, pc.d); }
    if Somewhere(tables, u) {
      var h :| 0 <= h < |tables| && !NoId(tables[h], u);
      assert !NoId(tables'[h], u);
    }
  }

  lemma OtherEntryKept(table: seq<Slot>, table': seq<Slot>, hash: seq<nat>, threads: seq<Thread>, threads': seq<Thread>, slot: Slot)
    requires slot.key.Id? && EntryOk(table, hash, threads, slot) && |threads| == |threads'|
    requires Kept(table, table', slot.key.t) && threads'[slot.key.t].bound == threads[slot.key.t].bound
    ensures EntryOk(table', hash, threads', slot)
  {
    KeptAt(table, table', slot.key.t, hash[slot.key.t], 0);
  }

  /** A step of thread t that changes none of the tables. */
  lemma PcKeeps(s: State, s': State, t: nat)
    requires Inv(s) && t < |s.threads| == |s'.threads| && s'.tables == s.tables && s'.hash == s.hash
    requires s'.threads == s.threads[t := s'.threads[t]] && s'.threads[t].bound == s.threads[t].bound
    requires PcOk(s.tables, s.hash[t], t, s'.threads[t])
    ensures TablesOk(s') && PcsOk(s')
  {
    hide PcOk, Found, OneSlot;
    forall h | 0 <= h < |s.tables| ensures TableOk(s'.tables[h], s'.hash, s'.threads) {
      assert TableOk(s.tables[h], s.hash, s.threads);
      forall i | 0 <= i < |s.tables[h]| && s.tables[h][i].key.Id? ensures EntryOk(s.tables[h], s.hash, s'.threads, s.tables[h][i]) {
        assert EntryOk(s.tables[h], s.hash, s.threads, s.tables[h][i]);
      }
    }
  }

  lemma SameOwners(threads: seq<Thread>, inactive: seq<bool>, t: nat, th: Thread)
    requires OwnersOk(threads, inactive) && t < |threads| && (Owned(th) == Owned(threads[t]) || Owned(th) == None)
    ensures OwnersOk(threads[t := th], inactive)
  {
  }

  // ----- searching -----

  lemma TableFact(s: State, h: nat)
    requires Inv(s) && h < |s.tables|
    ensures TableOk(s.tables[h], s.hash, s.threads)
  {
    hide TableOk;
  }

  lemma PcFact(s: State, t: nat)
    requires Inv(s) && t < |s.threads|
    ensures |s.hash| == |s.threads| && PcOk(s.tables, s.hash[t], t, s.threads[t])
  {
    hide PcOk;
  }

  /** The id stands in the slot looked at: its value is the producer the thread is bound to. */
  lemma HitIsBound(s: State, t: nat, h: nat, d: nat)
    requires Inv(s) && t < |s.threads| == |s.hash| && h < |s.tables|
    requires s.tables[h] != [] && At(s.tables[h], s.hash[t], d) == Id(t)
    ensures s.threads[t].bound == Some(s.tables[h][Index(s.tables[h], s.hash[t], d)].value)
  {
    hide PcOk;
    TableFact(s, h);
    assert EntryOk(s.tables[h], s.hash, s.threads, s.tables[h][Index(s.tables[h], s.hash[t], d)]);
  }

  /** An empty slot is reached: the id is not in this table. */
  lemma MissIsAbsent(s: State, t: nat, h: nat, d: nat)
    requires Inv(s) && t < |s.threads| == |s.hash| && h < |s.tables|
    requires Passed(s.tables[h], s.hash[t], t, d) && At(s.tables[h], s.hash[t], d) == Empty
    ensures NoId(s.tables[h], t)
  {
    hide PcOk;
    TableFact(s, h);
    forall i | 0 <= i < |s.tables[h]| && s.tables[h][i].key == Id(t) ensures Found(s.tables[h], s.hash[t], t) {
      assert EntryOk(s.tables[h], s.hash, s.threads, s.tables[h][i]);
    }
    SearchIsComplete(s.tables[h], s.hash[t], t, d);
  }

  lemma MoveOn(table: seq<Slot>, hash: nat, t: nat, d: nat)
    requires Passed(table, hash, t, d) && At(table, hash, d) != Empty && At(table, hash, d) != Id(t)
    ensures Passed(table, hash, t, d + 1)
  {
  }

  lemma ProbeKeeps(s: State, t: nat)
    requires Inv(s) && t < |s.threads| && s.threads[t].pc.Probe?
    ensures Inv(ProbeStep(s, t, s.threads[t].pc.main, s.threads[t].pc.h, s.threads[t].pc.d))
  {
    hide TablesOk, OwnersOk, NoId, At;
    PcFact(s, t);
    var Probe(main, h, d) := s.threads[t].pc;
    var s' := ProbeStep(s, t, main, h, d);
    var table := s.tables[h];
    assert table != [] by { TableFact(s, h); }
    match At(table, s.hash[t], d) {
      case Id(u) => if u == t { HitIsBound(s, t, h, d); } else { MoveOn(table, s.hash[t], t, d); }
      case Empty => MissIsAbsent(s, t, h, d); AbsentAbove(s.tables, h, t);
      case Tomb => MoveOn(table, s.hash[t], t, d);
    }
    PcKeeps(s, s', t);
    SameOwners(s.threads, s.inactive, t, s'.threads[t]);
  }

  lemma AbsentAbove(tables: seq<seq<Slot>>, h: nat, t: nat)
    requires NoneAbove(tables, h, t) && h < |tables| && NoId(tables[h], t)
    ensures NoneAbove(tables, h - 1, t)
    ensures h == 0 ==> !Somewhere(tables, t)
  {
  }

  lemma EraseMissKeeps(s: State, t: nat)
    requires Inv(s) && t < |s.threads| && s.threads[t].pc.Erase?
    requires At(TableAt(s, s.threads[t].pc.h), s.hash[t], s.threads[t].pc.d) != Id(t)
    ensures Inv(EraseStep(s, t, s.threads[t].pc.h, s.threads[t].pc.d))
  {
    hide TablesOk, OwnersOk, NoId, At;
    PcFact(s, t);
    var Erase(h, d) := s.threads[t].pc;
    var s' := EraseStep(s, t, h, d);
    if At(s.tables[h], s.hash[t], d) == Empty {
      MissIsAbsent(s, t, h, d);
      AbsentAbove(s.tables, h, t);
    } else {
      MoveOn(s.tables[h], s.hash[t], t, d);
    }
    PcKeeps(s, s', t);
    SameOwners(s.threads, s.inactive, t, s'.threads[t]);
  }

  // ----- writing a slot -----

  lemma WrittenTable(s: State, t: nat, h: nat, d: nat, x: Slot, threads': seq<Thread>)
    requires Writes(s, t, h, d, x) && TableOk(s.tables[h], s.hash, s.threads)
    requires |threads'| == |s.threads| && threads' == s.threads[t := threads'[t]]
    requires x.key == Id(t) ==> NoId(s.tables[h], t) && InUse(s.tables[h], s.hash[t], d) && threads'[t].bound == Some(x.value)
    ensures TableOk(Put(s.tables, h, s.hash[t], d, x)[h], s.hash, threads')
    ensures x.key == Tomb ==> NoId(Put(s.tables, h, s.hash[t], d, x)[h], t)
  {
    var table, table' := s.tables[h], Put(s.tables, h, s.hash[t], d, x)[h];
    var w := Index(table, s.hash[t], d);
    assert table' == table[w := x];
    forall i | 0 <= i < |table'| && table'[i].key.Id? ensures EntryOk(table', s.hash, threads', table'[i]) {
      if i == w {
        WrittenIsFound(table, s.hash[t], t, d, x);
      } else {
        assert EntryOk(table, s.hash, s.threads, table[i]);
        WriteKeeps(s, t, h, d, x, table[i].key.t);
        OtherEntryKept(table, table', s.hash, s.threads, threads', table[i]);
      }
    }
  }

  lemma WrittenIsFound(table: seq<Slot>, hash: nat, t: nat, d: nat, x: Slot)
    requires table != [] && x.key == Id(t) && InUse(table, hash, d)
    ensures Found(table[Index(table, hash, d) := x], hash, t)
  {
    var table' := table[Index(table, hash, d) := x];
    forall k | 0 <= k < d ensures At(table', hash, k) != Empty { assert At(table, hash, k) != Empty; }
    assert At(table', hash, d) == Id(t);
  }

  /** The other tables only see that thread t is bound, if it had no entry, or that nothing changed. */
  lemma UnwrittenTable(table: seq<Slot>, hash: seq<nat>, threads: seq<Thread>, threads': seq<Thread>, t: nat)
    requires TableOk(table, hash, threads) && t < |threads| == |threads'| && threads' == threads[t := threads'[t]]
    requires NoId(table, t) || threads'[t].bound == threads[t].bound
    ensures TableOk(table, hash, threads')
  {
    forall i | 0 <= i < |table| && table[i].key.Id? ensures EntryOk(table, hash, threads', table[i]) {
      assert EntryOk(table, hash, threads, table[i]);
    }
  }

  lemma WriteTables(s: State, s': State, t: nat, h: nat, d: nat, x: Slot)
    requires Inv(s) && Writes(s, t, h, d, x) && s'.tables == Put(s.tables, h, s.hash[t], d, x) && s'.hash == s.hash
    requires |s'.threads| == |s.threads| && s'.threads == s.threads[t := s'.threads[t]]
    requires x.key == Id(t) ==> NoId(s.tables[h], t) && InUse(s.tables[h], s.hash[t], d) && s'.threads[t].bound == Some(x.value)
    requires s'.threads[t].bound == s.threads[t].bound || NoneAbove(s.tables, -1, t)
    requires PcOk(s'.tables, s.hash[t], t, s'.threads[t])
    ensures TablesOk(s') && PcsOk(s')
  {
    hide PcOk, TableOk, NoId, Kept, InUse;
    TableFact(s, h);
    WrittenTable(s, t, h, d, x, s'.threads);
    forall k | 0 <= k < |s'.tables| ensures TableOk(s'.tables[k], s'.hash, s'.threads) {
      if k != h {
        TableFact(s, k);
        UnwrittenTable(s.tables[k], s.hash, s.threads, s'.threads, t);
      }
    }
    forall u | 0 <= u < |s'.threads| ensures PcOk(s'.tables, s'.hash[u], u, s'.threads[u]) {
      if u != t {
        PcFact(s, u);
        WriteKeeps(s, t, h, d, x, u);
        OtherPcKept(s.tables, s'.tables, s.hash[u], u, s.threads[u]);
      }
    }
  }

  lemma SlotIsThere(tables: seq<seq<Slot>>, h: nat, hash: nat, d: nat, x: Slot, t: nat)
    requires h < |tables| && tables[h] != [] && x.key == Id(t)
    ensures Somewhere(Put(tables, h, hash, d, x), t)
  {
    var tables' := Put(tables, h, hash, d, x);
    assert tables'[h][Index(tables[h], hash, d)] == x;
    assert !NoId(tables'[h], t);
  }

  /** Lazily copied into the main table. */
  lemma CopyKeeps(s: State, t: nat)
    requires Inv(s) && t < |s.threads| && s.threads[t].pc.CopyTo?
    ensures Inv(CopyStep(s, t, s.threads[t].pc.main, s.threads[t].pc.d, s.threads[t].pc.value))
  {
    hide TablesOk, OwnersOk, NoId, At, TableOk, Put;
    PcFact(s, t);
    var CopyTo(main, d, value) := s.threads[t].pc;
    TableFact(s, main);
    assert s.tables[main] != [] by { NotEmptyTable(s, main); }
    var s' := CopyStep(s, t, main, d, value);
    SameOwners(s.threads, s.inactive, t, s'.threads[t]);
    if At(s.tables[main], s.hash[t], d).Id? {
      assert InUse(s.tables[main], s.hash[t], d + 1);
      PcKeeps(s, s', t);
    } else {
      SlotIsThere(s.tables, main, s.hash[t], d, Slot(Id(t), value), t);
      assert NoId(s.tables[main], t);
      WriteTables(s, s', t, main, d, Slot(Id(t), value));
    }
  }

  lemma NotEmptyTable(s: State, h: nat)
    requires Inv(s) && h < |s.tables|
    ensures s.tables[h] != []
  {
    hide PcOk, EntryOk;
    TableFact(s, h);
  }

  /** A thread that is not bound has no entry. */
  lemma UnboundIsAbsent(s: State, t: nat)
    requires Inv(s) && t < |s.threads| && s.threads[t].bound == None
    ensures NoneAbove(s.tables, -1, t)
  {
    hide PcOk;
    forall h | 0 <= h < |s.tables| ensures NoId(s.tables[h], t) {
      TableFact(s, h);
      forall i | 0 <= i < |s.tables[h]| ensures s.tables[h][i].key != Id(t) {
        if s.tables[h][i].key.Id? { assert EntryOk(s.tables[h], s.hash, s.threads, s.tables[h][i]); }
      }
    }
  }

  /** The thread is bound, in a tombstone's slot or an empty one. */
  lemma BindKeeps(s: State, t: nat, pc: PC)
    requires Inv(s) && t < |s.threads| && (s.threads[t].pc.TryTomb? || s.threads[t].pc.TryEmpty?)
    requires pc == Uncount || pc == Idle
    requires !At(TableAt(s, s.threads[t].pc.main), s.hash[t], s.threads[t].pc.d).Id?
    ensures Inv(Bind(s, t, s.threads[t].pc.main, s.threads[t].pc.d, s.threads[t].pc.p, pc))
  {
    hide TablesOk, OwnersOk, NoId, At, TableOk, Put;
    PcFact(s, t);
    var main, d, p := s.threads[t].pc.main, s.threads[t].pc.d, s.threads[t].pc.p;
    NotEmptyTable(s, main);
    UnboundIsAbsent(s, t);
    var s' := Bind(s, t, main, d, p, pc);
    SameOwners(s.threads, s.inactive, t, s'.threads[t]);
    SlotIsThere(s.tables, main, s.hash[t], d, Slot(Id(t), p), t);
    assert NoId(s.tables[main], t);
    WriteTables(s, s', t, main, d, Slot(Id(t), p));
  }

  lemma NextTryKeeps(s: State, t: nat, pc: PC)
    requires Inv(s) && t < |s.threads| && (s.threads[t].pc.TryTomb? || s.threads[t].pc.TryEmpty?)
    requires pc == TryEmpty(s.threads[t].pc.main, s.threads[t].pc.d, s.threads[t].pc.p)
             || (pc == TryTomb(s.threads[t].pc.main, s.threads[t].pc.d + 1, s.threads[t].pc.p)
                 && At(TableAt(s, s.threads[t].pc.main), s.hash[t], s.threads[t].pc.d) != Empty)
    ensures Inv(Goto(s, t, pc))
  {
    hide TablesOk, OwnersOk, NoId, At;
    PcFact(s, t);
    var s' := Goto(s, t, pc);
    PcKeeps(s, s', t);
    SameOwners(s.threads, s.inactive, t, s'.threads[t]);
  }

  /** The id of a thread that exits becomes a tombstone. */
  lemma EraseHitKeeps(s: State, t: nat)
    requires Inv(s) && t < |s.threads| && s.threads[t].pc.Erase?
    requires At(TableAt(s, s.threads[t].pc.h), s.hash[t], s.threads[t].pc.d) == Id(t)
    ensures Inv(EraseStep(s, t, s.threads[t].pc.h, s.threads[t].pc.d))
  {
    hide TablesOk, OwnersOk, NoId, At, TableOk;
    PcFact(s, t);
    var Erase(h, d) := s.threads[t].pc;
    NotEmptyTable(s, h);
    TableFact(s, h);
    var s' := EraseStep(s, t, h, d);
    var x := Slot(Tomb, s.tables[h][Index(s.tables[h], s.hash[t], d)].value);
    WrittenTable(s, t, h, d, x, s'.threads);
    SameOwners(s.threads, s.inactive, t, s'.threads[t]);
    assert NoneAbove(s'.tables, h - 1, t);
    WriteTables(s, s', t, h, d, x);
  }

  // ----- other steps -----

  /** A new, empty main table. */
  lemma NewTableKeeps(s: State, t: nat, n: nat, c: nat)
    requires Inv(s) && t < |s.threads| && s.threads[t].pc.Grow? && c > 0
    ensures var s' := Goto(s.(tables := s.tables + [seq(c, _ => Slot(Empty, 0))]), t, Unlock(|s.tables|, n)); Inv(s')
  {
    hide OwnersOk;
    var blank := seq(c, _ => Slot(Empty, 0));
    var s' := Goto(s.(tables := s.tables + [blank]), t, Unlock(|s.tables|, n));
    assert NoIdIn(blank);
    PcFact(s, t);
    forall h | 0 <= h < |s'.tables| ensures TableOk(s'.tables[h], s'.hash, s'.threads) {
      if h < |s.tables| {
        TableFact(s, h);
        UnwrittenTable(s.tables[h], s.hash, s.threads, s'.threads, t);
      }
    }
    forall u | 0 <= u < |s'.threads| ensures PcOk(s'.tables, s'.hash[u], u, s'.threads[u]) {
      PcFact(s, u);
      MoreTables(s.tables, blank, u);
    }
    SameOwners(s.threads, s.inactive, t, s'.threads[t]);
  }

  ghost predicate NoIdIn(table: seq<Slot>) { forall i :: 0 <= i < |table| ==> table[i].key == Empty }

  lemma MoreTables(tables: seq<seq<Slot>>, blank: seq<Slot>, u: nat)
    requires NoIdIn(blank)
    ensures Somewhere(tables, u) ==> Somewhere(tables + [blank], u)
    ensures forall h :: NoneAbove(tables, h, u) ==> NoneAbove(tables + [blank], h, u)
  {
    if Somewhere(tables, u) {
      var h :| 0 <= h < |tables| && !NoId(tables[h], u);
      assert (tables + [blank])[h] == tables[h];
    }
  }

  lemma RecycleKeeps(s: State, t: nat, ok: bool, p: nat)
    requires Inv(s) && Enabled(s, Run(t, ok, p)) && s.threads[t].pc.Recycle? && ok
    ensures Inv(RecycleStep(s, t, s.threads[t].pc.main, ok, p))
  {
    hide TablesOk, PcOk, NoId, At;
    PcFact(s, t);
    var s' := RecycleStep(s, t, s.threads[t].pc.main, ok, p);
    RecyclePc(s, t, p);
    PcKeeps(s, s', t);
  }

  lemma RecyclePc(s: State, t: nat, p: nat)
    requires t < |s.threads| == |s.hash| && s.threads[t].pc.Recycle? && PcOk(s.tables, s.hash[t], t, s.threads[t])
    ensures PcOk(s.tables, s.hash[t], t, s.threads[t].(pc := TryTomb(s.threads[t].pc.main, 0, p)))
    ensures s.threads[t].bound == None
  {
  }

  lemma RetireKeeps(s: State, t: nat)
    requires Inv(s) && t < |s.threads| && s.threads[t].pc.Retire?
    ensures Inv(RetireStep(s, t))
  {
    var s' := RetireStep(s, t);
    PcFact(s, t);
    forall h | 0 <= h < |s'.tables| ensures TableOk(s'.tables[h], s'.hash, s'.threads) {
      TableFact(s, h);
      UnwrittenTable(s.tables[h], s.hash, s.threads, s'.threads, t);
    }
    assert PcsOk(s') by { hide TablesOk, OwnersOk; }
    assert OwnersOk(s'.threads, s'.inactive) by { hide TablesOk, PcsOk, TableOk; }
  }

  /** Steps within a call that only move on. */
  lemma SimpleKeeps(s: State, s': State, t: nat, th: Thread)
    requires Inv(s) && t < |s.threads|
    requires s'.tables == s.tables && s'.hash == s.hash && s'.inactive == s.inactive && s'.threads == s.threads[t := th]
    requires th.bound == s.threads[t].bound && Owned(th) == Owned(s.threads[t])
    requires PcOk(s.tables, s.hash[t], t, th)
    ensures Inv(s')
  {
    hide PcOk, TablesOk, PcsOk;
    PcKeeps(s, s', t);
    SameOwners(s.threads, s.inactive, t, th);
  }

  lemma PlainKeeps(s: State, t: nat, ok: bool, p: nat)
    requires Inv(s) && Enabled(s, Run(t, ok, p))
    requires var pc := s.threads[t].pc;
      pc.LoadMain? || pc.CountUp? || pc.Check? || pc.Unlock? || pc.Room? || pc.Uncount? || pc.GiveUp? || pc.ClearLock?
    ensures Inv(Step(s, t, ok, p))
  {
    hide NoId, Found, TablesOk, OwnersOk, Passed, InUse;
    PcFact(s, t);
    assert s.tables != [] by { SomeTable(s); }
    PlainPc(s, t, ok, p);
    SimpleKeeps(s, Step(s, t, ok, p), t, Step(s, t, ok, p).threads[t]);
  }

  lemma SomeTable(s: State)
    requires Inv(s)
    ensures s.tables != []
  {
    hide TableOk, PcOk, OwnersOk;
  }

  lemma PlainPc(s: State, t: nat, ok: bool, p: nat)
    requires Enabled(s, Run(t, ok, p)) && s.tables != [] && PcOk(s.tables, s.hash[t], t, s.threads[t])
    requires var pc := s.threads[t].pc;
      pc.LoadMain? || pc.CountUp? || pc.Check? || pc.Unlock? || pc.Room? || pc.Uncount? || pc.GiveUp? || pc.ClearLock?
    ensures PcOk(s.tables, s.hash[t], t, Step(s, t, ok, p).threads[t])
  {
    hide NoId, Found, InUse;
  }

  lemma GrowKeeps(s: State, t: nat, n: nat, ok: bool)
    requires Inv(s) && t < |s.threads| && s.threads[t].pc == Grow(n)
    ensures Inv(GrowStep(s, t, n, ok))
  {
    hide NoId, Found, NewCapacity;
    PcFact(s, t);
    NotEmptyTable(s, Main(s)) by { assert s.tables != []; }
    var c := Capacity(s, Main(s));
    if n < c / 2 || !ok {
      var pc := if n < c / 2 then Unlock(Main(s), n) else GiveUp(true);
      SimpleKeeps(s, Goto(s, t, pc), t, s.threads[t].(pc := pc));
    } else {
      NewTableKeeps(s, t, n, NewCapacity(n, 2 * c));
    }
  }

  lemma StepKeeps(s: State, t: nat, ok: bool, p: nat)
    requires Inv(s) && Enabled(s, Run(t, ok, p))
    ensures Inv(Step(s, t, ok, p))
  {
    hide Inv, ProbeStep, CopyStep, GrowStep, RecycleStep, TombStep, EmptyStep, EraseStep, RetireStep;
    match s.threads[t].pc {
      case Probe(_, _, _) => ProbeKeeps(s, t);
      case CopyTo(_, _, _) => CopyKeeps(s, t);
      case Grow(n) => GrowKeeps(s, t, n, ok);
      case Recycle(main) => RecycleOrFailKeeps(s, t, ok, p);
      case TryTomb(_, _, _) => TombKeeps(s, t);
      case TryEmpty(_, _, _) => EmptyKeeps(s, t);
      case Erase(_, _) => EraseKeeps(s, t);
      case Retire => RetireKeeps(s, t);
      case _ => PlainKeeps(s, t, ok, p);
    }
  }

  lemma RecycleOrFailKeeps(s: State, t: nat, ok: bool, p: nat)
    requires Inv(s) && Enabled(s, Run(t, ok, p)) && s.threads[t].pc.Recycle?
    ensures Inv(RecycleStep(s, t, s.threads[t].pc.main, ok, p))
  {
    if ok {
      RecycleKeeps(s, t, ok, p);
    } else {
      hide NoId, Found;
      PcFact(s, t);
      SimpleKeeps(s, Goto(s, t, GiveUp(false)), t, s.threads[t].(pc := GiveUp(false)));
    }
  }

  lemma TombKeeps(s: State, t: nat)
    requires Inv(s) && t < |s.threads| == |s.hash| && s.threads[t].pc.TryTomb?
    ensures Inv(TombStep(s, t, s.threads[t].pc.main, s.threads[t].pc.d, s.threads[t].pc.p))
  {
    hide Inv, At, Bind;
    var TryTomb(main, d, p) := s.threads[t].pc;
    if At(TableAt(s, main), s.hash[t], d).Tomb? { BindKeeps(s, t, Uncount); } else { NextTryKeeps(s, t, TryEmpty(main, d, p)); }
  }

  lemma EmptyKeeps(s: State, t: nat)
    requires Inv(s) && t < |s.threads| == |s.hash| && s.threads[t].pc.TryEmpty?
    ensures Inv(EmptyStep(s, t, s.threads[t].pc.main, s.threads[t].pc.d, s.threads[t].pc.p))
  {
    hide Inv, At, Bind;
    var TryEmpty(main, d, p) := s.threads[t].pc;
    if At(TableAt(s, main), s.hash[t], d).Empty? { BindKeeps(s, t, Idle); } else { NextTryKeeps(s, t, TryTomb(main, d + 1, p)); }
  }

  lemma EraseKeeps(s: State, t: nat)
    requires Inv(s) && t < |s.threads| == |s.hash| && s.threads[t].pc.Erase?
    ensures Inv(EraseStep(s, t, s.threads[t].pc.h, s.threads[t].pc.d))
  {
    hide Inv, At;
    if At(TableAt(s, s.threads[t].pc.h), s.hash[t], s.threads[t].pc.d) == Id(t) { EraseHitKeeps(s, t); } else { EraseMissKeeps(s, t); }
  }

  lemma CallKeeps(s: State, t: nat)
    requires Inv(s) && Enabled(s, Call(t))
    ensures Inv(Next(s, Call(t)))
  {
    hide NoId, Found;
    PcFact(s, t);
    SimpleKeeps(s, Next(s, Call(t)), t, Next(s, Call(t)).threads[t]);
  }

  lemma ExitKeeps(s: State, t: nat)
    requires Inv(s) && Enabled(s, Exit(t))
    ensures Inv(Next(s, Exit(t)))
  {
    hide NoId, Found;
    PcFact(s, t);
    SimpleKeeps(s, Next(s, Exit(t)), t, Next(s, Exit(t)).threads[t]);
  }

  lemma RebornKeeps(s: State, t: nat)
    requires Inv(s) && Enabled(s, Reborn(t))
    ensures Inv(Next(s, Reborn(t)))
  {
    hide NoId, Found;
    PcFact(s, t);
    SimpleKeeps(s, Next(s, Reborn(t)), t, Next(s, Reborn(t)).threads[t]);
  }

  lemma NextInv(s: State, a: Action)
    requires Inv(s) && Enabled(s, a)
    ensures Inv(Next(s, a))
  {
    hide Inv, Step;
    match a {
      case Call(t) => CallKeeps(s, t);
      case Exit(t) => ExitKeeps(s, t);
      case Reborn(t) => RebornKeeps(s, t);
      case Run(t, ok, p) => StepKeeps(s, t, ok, p);
    }
  }

  ghost predicate Moves(s: State, a: Action, s': State) { Enabled(s, a) && s' == Next(s, a) }

  ghost predicate Leads(s: State, s': State) { exists a :: Moves(s, a, s') }

  ghost predicate IsRun(run: seq<State>) {
    && run != [] && Init(run[0])
    && (forall i :: 0 <= i < |run| - 1 ==> Leads(run[i], run[i + 1]))
  }

  ghost predicate Reachable(s: State) { exists run :: IsRun(run) && run[|run| - 1] == s }

  lemma {:induction false} RunInv(run: seq<State>, i: nat)
    requires IsRun(run) && i < |run|
    ensures Inv(run[i])
  {
    hide Inv, Enabled, Next, Init;
    if i == 0 {
      InitInv(run[0]);
    } else {
      RunInv(run, i - 1);
      assert Leads(run[i - 1], run[i - 1 + 1]);
      var a :| Moves(run[i - 1], a, run[i]);
      NextInv(run[i - 1], a);
    }
  }

  lemma ReachableInv(s: State)
    requires Reachable(s)
    ensures Inv(s)
  {
    hide Inv, Enabled, Next, Init;
    var run :| IsRun(run) && run[|run| - 1] == s;
    RunInv(run, |run| - 1);
  }

  // ----- what every run guarantees -----

  /** A call returns the producer that the thread was first bound to, and a bound thread is never on its
      way to being bound again, however the tables have grown since. */
  lemma SearchFindsTheFirstBinding(s: State, t: nat)
    requires Reachable(s) && t < |s.threads|
    ensures s.threads[t].result.Some? ==> s.threads[t].result == s.threads[t].bound
    ensures s.threads[t].bound.Some? ==> !Joining(s.threads[t].pc)
  {
    hide Reachable, Inv, NoId, Found;
    ReachableInv(s);
    PcFact(s, t);
  }

  lemma BoundFacts(s: State, t: nat)
    requires Inv(s) && t < |s.threads| && s.threads[t].bound.Some?
    ensures !Joining(s.threads[t].pc) && s.threads[t].pc != Dead
  {
    hide NoId, Found, TablesOk, OwnersOk;
    PcFact(s, t);
  }

  ghost predicate OnlyThread(s: State, s': State, t: nat)
    requires t < |s.threads|
  {
    && |s'.threads| == |s.threads| && s'.threads == s.threads[t := s'.threads[t]]
    && (s'.threads[t].bound == s.threads[t].bound || s'.threads[t].pc == Dead || s.threads[t].pc.TryTomb? || s.threads[t].pc.TryEmpty?)
  }

  lemma ProbesOnlyThread(s: State, t: nat)
    requires t < |s.threads| == |s.hash|
    ensures s.threads[t].pc.Probe? ==> OnlyThread(s, ProbeStep(s, t, s.threads[t].pc.main, s.threads[t].pc.h, s.threads[t].pc.d), t)
    ensures s.threads[t].pc.CopyTo? ==> OnlyThread(s, CopyStep(s, t, s.threads[t].pc.main, s.threads[t].pc.d, s.threads[t].pc.value), t)
    ensures s.threads[t].pc.Erase? ==> OnlyThread(s, EraseStep(s, t, s.threads[t].pc.h, s.threads[t].pc.d), t)
  {
    hide At, Put, Index;
  }

  lemma TriesOnlyThread(s: State, t: nat, ok: bool, p: nat)
    requires t < |s.threads| == |s.hash|
    ensures s.threads[t].pc.TryTomb? ==> OnlyThread(s, TombStep(s, t, s.threads[t].pc.main, s.threads[t].pc.d, s.threads[t].pc.p), t)
    ensures s.threads[t].pc.TryEmpty? ==> OnlyThread(s, EmptyStep(s, t, s.threads[t].pc.main, s.threads[t].pc.d, s.threads[t].pc.p), t)
    ensures s.threads[t].pc.Grow? ==> OnlyThread(s, GrowStep(s, t, s.threads[t].pc.n, ok), t)
    ensures s.threads[t].pc.Recycle? ==> OnlyThread(s, RecycleStep(s, t, s.threads[t].pc.main, ok, p), t)
    ensures OnlyThread(s, RetireStep(s, t), t)
  {
    hide At, Put, Index, NewCapacity;
  }

  /** A step changes only its own thread, and its binding only where it is bound or gone. */
  lemma StepOf(s: State, t: nat, ok: bool, p: nat)
    requires Enabled(s, Run(t, ok, p))
    ensures OnlyThread(s, Step(s, t, ok, p), t)
  {
    hide ProbeStep, CopyStep, EraseStep, TombStep, EmptyStep, GrowStep, RecycleStep, RetireStep;
    ProbesOnlyThread(s, t);
    TriesOnlyThread(s, t, ok, p);
  }

  /** The binding of a thread lasts until it has exited. */
  lemma BindingLasts(s: State, a: Action, t: nat)
    requires Reachable(s) && Enabled(s, a) && t < |s.threads| && s.threads[t].bound.Some?
    ensures t < |Next(s, a).threads|
    ensures Next(s, a).threads[t].bound == s.threads[t].bound || Next(s, a).threads[t].pc == Dead
  {
    hide Reachable, Inv, At, Put, NewCapacity, Step;
    ReachableInv(s);
    BoundFacts(s, t);
    if a.Run? { StepOf(s, a.t, a.ok, a.p); }
  }

  /** No two threads share a producer, and none uses one that another may recycle. */
  lemma ProducersAreNotShared(s: State, t: nat, u: nat)
    requires Reachable(s) && t < |s.threads| && u < |s.threads| && t != u && s.threads[t].bound.Some?
    ensures s.threads[t].bound != s.threads[u].bound
    ensures s.threads[t].bound.value < |s.inactive| && !s.inactive[s.threads[t].bound.value]
  {
    hide Reachable, NoId, Found;
    ReachableInv(s);
    PcFact(s, t);
    PcFact(s, u);
    assert Owned(s.threads[t]) == s.threads[t].bound;
    if s.threads[u].bound.Some? { assert Owned(s.threads[u]) == s.threads[u].bound; }
  }

  /** Once a thread has exited, no table holds its id. */
  lemma ExitLeavesNoTrace(s: State, t: nat, h: nat, i: nat)
    requires Reachable(s) && t < |s.threads| && s.threads[t].pc == Dead && h < |s.tables| && i < |s.tables[h]|
    ensures s.tables[h][i].key != Id(t)
  {
    hide Reachable, Inv, Found;
    ReachableInv(s);
    PcFact(s, t);
    UnboundIsAbsent(s, t);
  }
}
