/** The table from thread ids to implicit producers: lock-free open addressing in a list of ever larger
    tables, searched from the newest to the oldest, with tombstones for threads that have exited. */
module ThreadHashes {
  import opened Options

  datatype Key = Empty | Tomb | Id(t: nat)   // invalid_thread_id, invalid_thread_id2, or a thread's id

  datatype Slot = Slot(key: Key, value: nat)

  /** Where a thread stands; d counts the slots it has probed in a table. */
  datatype PC =
    | Dead
    | Idle
    | LoadMain                                   // implicitProducerHash.load
    | Probe(main: nat, h: nat, d: nat)           // the key of a slot of table h
    | CopyTo(main: nat, d: nat, value: nat)      // found in an older table: lazily add it to the main one
    | CountUp(main: nat)                         // implicitProducerHashCount.fetch_add
    | Check(main: nat, n: nat)                   // resizeInProgress.test_and_set, if the table is half full
    | Grow(n: nat)                               // a table at least twice the size
    | Unlock(main: nat, n: nat)                  // resizeInProgress.clear
    | Room(main: nat, n: nat)                    // below three quarters?
    | Recycle(main: nat)                         // recycle_or_create_producer
    | TryTomb(main: nat, d: nat, p: nat)         // CAS of a tombstone
    | TryEmpty(main: nat, d: nat, p: nat)        // CAS of an empty slot
    | Uncount                                    // fetch_sub: the slot was counted already
    | GiveUp(locked: bool)                       // no memory: fetch_sub
    | ClearLock
    | Erase(h: nat, d: nat)                      // the thread exits: its id becomes a tombstone
    | Retire                                     // producer->inactive.store(true)

  /** `bound` is history: the producer the thread was first given.  `result` is what its last call got. */
  datatype Thread = Thread(pc: PC, bound: Option<nat>, result: Option<nat>)

  /** The last table is the main one; `prev` of a table is the one before it.  `hash` are the ids' hashes. */
  datatype State = State(
    tables: seq<seq<Slot>>, count: int, resizing: bool, inactive: seq<bool>, hash: seq<nat>, threads: seq<Thread>)

  datatype Action =
    | Call(t: nat)
    | Exit(t: nat)
    | Reborn(t: nat)                     // a new thread gets the id of one that is gone
    | Run(t: nat, ok: bool, p: nat)      // ok: an allocation succeeds; p: the producer recycled, or a new one

  function Main(s: State): nat { if |s.tables| > 0 then |s.tables| - 1 else 0 }

  function Index(table: seq<Slot>, hash: nat, d: nat): nat
    requires table != []
  {
    (hash + d) % |table|
  }

  function At(table: seq<Slot>, hash: nat, d: nat): Key {
    if table == [] then Tomb else table[Index(table, hash, d)].key
  }

  function Put(tables: seq<seq<Slot>>, h: nat, hash: nat, d: nat, x: Slot): seq<seq<Slot>> {
    if h < |tables| && tables[h] != [] then tables[h := tables[h][Index(tables[h], hash, d) := x]] else tables
  }

  function Capacity(s: State, h: nat): nat { if h < |s.tables| then |s.tables[h]| else 0 }

  predicate Enabled(s: State, a: Action) {
    |s.hash| == |s.threads| &&
    match a
    case Call(t) => t < |s.threads| && s.threads[t].pc == Idle
    case Exit(t) => t < |s.threads| && s.threads[t].pc == Idle
    case Reborn(t) => t < |s.threads| && s.threads[t].pc == Dead
    case Run(t, ok, p) =>
      && t < |s.threads| && s.threads[t].pc != Dead && s.threads[t].pc != Idle
      && (s.threads[t].pc.Recycle? && ok ==> p == |s.inactive| || (p < |s.inactive| && s.inactive[p]))
  }

  function Goto(s: State, t: nat, pc: PC): State
    requires t < |s.threads|
  {
    s.(threads := s.threads[t := s.threads[t].(pc := pc)])
  }

  function Next(s: State, a: Action): State
    requires Enabled(s, a)
  {
    match a
    case Call(t) => s.(threads := s.threads[t := s.threads[t].(pc := LoadMain, result := None)])
    case Exit(t) => Goto(s, t, if s.threads[t].bound.Some? then Erase(Main(s), 0) else Dead)
    case Reborn(t) => s.(threads := s.threads[t := Thread(Idle, None, None)])
    case Run(t, ok, p) => Step(s, t, ok, p)
  }

  function Step(s: State, t: nat, ok: bool, p: nat): State
    requires Enabled(s, Run(t, ok, p))
  {
    match s.threads[t].pc
    case LoadMain => Goto(s, t, Probe(Main(s), Main(s), 0))
    case Probe(main, h, d) => ProbeStep(s, t, main, h, d)
    case CopyTo(main, d, value) => CopyStep(s, t, main, d, value)
    case CountUp(main) => Goto(s.(count := s.count + 1), t, Check(main, NatOf(s.count + 1)))
    case Check(main, n) =>
      if n >= Capacity(s, main) / 2 && !s.resizing then Goto(s.(resizing := true), t, Grow(n))
      else Goto(s, t, Room(main, n))
    case Grow(n) => GrowStep(s, t, n, ok)
    case Unlock(main, n) => Goto(s.(resizing := false), t, Room(main, n))
    case Room(main, n) =>
      if n < Capacity(s, main) / 2 + Capacity(s, main) / 4 then Goto(s, t, Recycle(main))
      else Goto(s, t, Check(Main(s), n))
    case Recycle(main) => RecycleStep(s, t, main, ok, p)
    case TryTomb(main, d, p) => TombStep(s, t, main, d, p)
    case TryEmpty(main, d, p) => EmptyStep(s, t, main, d, p)
    case Uncount => Goto(s.(count := s.count - 1), t, Idle)
    case GiveUp(locked) => Goto(s.(count := s.count - 1), t, if locked then ClearLock else Idle)
    case ClearLock => Goto(s.(resizing := false), t, Idle)
    case Erase(h, d) => EraseStep(s, t, h, d)
    case Retire => RetireStep(s, t)
    case _ => s
  }

  function NatOf(x: int): nat { if x > 0 then x else 0 }

  function TableAt(s: State, h: nat): seq<Slot> { if h < |s.tables| then s.tables[h] else [] }

  function ProbeStep(s: State, t: nat, main: nat, h: nat, d: nat): State
    requires t < |s.threads| == |s.hash|
  {
    var table := TableAt(s, h);
    match At(table, s.hash[t], d)
    case Id(u) =>
      if u != t || table == [] then Goto(s, t, Probe(main, h, d + 1))
      else if h == main then Return(s, t, table[Index(table, s.hash[t], d)].value)
      else Goto(s, t, CopyTo(main, 0, table[Index(table, s.hash[t], d)].value))
    case Empty => if h == 0 then Goto(s, t, CountUp(main)) else Goto(s, t, Probe(main, h - 1, 0))
    case Tomb => Goto(s, t, Probe(main, h, d + 1))
  }

  function Return(s: State, t: nat, p: nat): State
    requires t < |s.threads|
  {
    s.(threads := s.threads[t := s.threads[t].(pc := Idle, result := Some(p))])
  }

  function CopyStep(s: State, t: nat, main: nat, d: nat, value: nat): State
    requires t < |s.threads| == |s.hash|
  {
    if At(TableAt(s, main), s.hash[t], d).Id? then Goto(s, t, CopyTo(main, d + 1, value))
    else Return(s.(tables := Put(s.tables, main, s.hash[t], d, Slot(Id(t), value))), t, value)
  }

  /** Doubled until n is below half of it. */
  function NewCapacity(n: nat, c: nat): (r: nat)
    ensures c > 0 ==> r >= c && n < r / 2
    decreases if c > 0 && n >= c / 2 then n + 1 - c / 2 else 0
  {
    if c > 0 && n >= c / 2 then NewCapacity(n, 2 * c) else c
  }

  function GrowStep(s: State, t: nat, n: nat, ok: bool): State
    requires t < |s.threads|
  {
    var c := Capacity(s, Main(s));
    if n < c / 2 then Goto(s, t, Unlock(Main(s), n))
    else if !ok then Goto(s, t, GiveUp(true))
    else Goto(s.(tables := s.tables + [seq(NewCapacity(n, 2 * c), _ => Slot(Empty, 0))]), t, Unlock(|s.tables|, n))
  }

  function RecycleStep(s: State, t: nat, main: nat, ok: bool, p: nat): State
    requires t < |s.threads|
  {
    if !ok then Goto(s, t, GiveUp(false))
    else Goto(s.(inactive := if p < |s.inactive| then s.inactive[p := false] else s.inactive + [false]), t, TryTomb(main, 0, p))
  }

  /** The thread is bound to producer p in slot d of the table it saw as the main one. */
  function Bind(s: State, t: nat, main: nat, d: nat, p: nat, pc: PC): State
    requires t < |s.threads| == |s.hash|
  {
    s.(tables := Put(s.tables, main, s.hash[t], d, Slot(Id(t), p)), threads := s.threads[t := Thread(pc, Some(p), Some(p))])
  }

  function TombStep(s: State, t: nat, main: nat, d: nat, p: nat): State
    requires t < |s.threads| == |s.hash|
  {
    if At(TableAt(s, main), s.hash[t], d).Tomb? then Bind(s, t, main, d, p, Uncount) else Goto(s, t, TryEmpty(main, d, p))
  }

  function EmptyStep(s: State, t: nat, main: nat, d: nat, p: nat): State
    requires t < |s.threads| == |s.hash|
  {
    if At(TableAt(s, main), s.hash[t], d).Empty? then Bind(s, t, main, d, p, Idle) else Goto(s, t, TryTomb(main, d + 1, p))
  }

  function EraseStep(s: State, t: nat, h: nat, d: nat): State
    requires t < |s.threads| == |s.hash|
  {
    var table := TableAt(s, h);
    var next := if h == 0 then Retire else Erase(h - 1, 0);
    match At(table, s.hash[t], d)
    case Id(u) =>
      if u != t || table == [] then Goto(s, t, Erase(h, d + 1))
      else Goto(s.(tables := Put(s.tables, h, s.hash[t], d, Slot(Tomb, table[Index(table, s.hash[t], d)].value))), t, next)
    case Empty => Goto(s, t, next)
    case Tomb => Goto(s, t, Erase(h, d + 1))
  }

  function RetireStep(s: State, t: nat): State
    requires t < |s.threads|
  {
    var p := s.threads[t].bound.GetOr(0);
    s.(inactive := if p < |s.inactive| then s.inactive[p := true] else s.inactive, threads := s.threads[t := Thread(Dead, None, None)])
  }

  ghost predicate Init(s: State) {
    && |s.tables| == 1 && |s.tables[0]| > 0 && s.tables[0] == seq(|s.tables[0]|, _ => Slot(Empty, 0))
    && s.count == 0 && !s.resizing && s.inactive == [] && |s.hash| == |s.threads|
    && forall t :: 0 <= t < |s.threads| ==> s.threads[t] == Thread(Idle, None, None)
  }
}
