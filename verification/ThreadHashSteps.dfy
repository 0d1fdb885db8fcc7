/** Runs of the thread-id table put together by hand: each lemma says that the run can go on with the next
    operations of a thread.  All ids that it meets have the hash 0, so that slot d is the d-th one probed.
    At no time are there more callers than half the first table's slots and two. */
module ThreadHashSteps {
  import opened Counting
  import opened Options
  import opened ThreadHashes
  import opened ThreadHashBound
  import ThreadHashMap
  import ThreadHashRoom

  const FREE: Slot := Slot(Empty, 0)
  const TOMB: Slot := Slot(Tomb, 0)
  const FRESH: Thread := Thread(Idle, None, None)

  function Limit(s: State): nat { if s.tables != [] then |s.tables[0]| / 2 + 2 else 0 }

  /** A run leads here with at most that many callers at a time. */
  ghost predicate Within(s: State) { s.tables != [] && exists r: ThreadHashRoom.Hist :: ReachableBy(r, Limit(s)) && r.s == s }

  ghost predicate Ready(s: State, t: nat) {
    Within(s) && s.tables != [] && t < |s.threads| == |s.hash| && s.hash[t] == 0
  }

  function Set(s: State, t: nat, th: Thread): State
    requires t < |s.threads|
  {
    s.(threads := s.threads[t := th])
  }

  lemma StartsThere(s: State)
    requires Init(s)
    ensures Within(s)
  {
    var zeros := seq(|s.threads|, _ => 0);
    var r := ThreadHashRoom.Hist(s, ThreadHashRoom.Log(0, zeros, zeros, [ThreadHashRoom.Book(0, -1, 0, 0)]));
    SumZero(s.threads, InsideFn());
    assert SlimRun([r], Limit(s));
    assert ReachableBy(r, Limit(s));
  }

  lemma GoFrom(r: ThreadHashRoom.Hist, a: Action, c: nat) returns (r': ThreadHashRoom.Hist)
    requires ReachableBy(r, c) && Enabled(r.s, a) && Callers(Next(r.s, a)) <= c
    ensures ReachableBy(r', c) && r'.s == Next(r.s, a)
  {
    hide ThreadHashRoom.Init, ThreadHashRoom.Inv, Enabled, Next, Callers;
    AlsoReachable(r, c);
    ThreadHashRoom.ReachableInv(r);
    SameThreads(r);
    r' := ThreadHashRoom.Next(r, a);
    var run :| SlimRun(run, c) && run[|run| - 1] == r;
    var run' := run + [r'];
    assert ThreadHashRoom.Moves(r, a, r');
    assert ThreadHashRoom.Leads(r, r');
    forall i | 0 <= i < |run'| - 1 ensures ThreadHashRoom.Leads(run'[i], run'[i + 1]) {
      if i < |run| - 1 { assert ThreadHashRoom.Leads(run[i], run[i + 1]); }
    }
    assert SlimRun(run', c) && run'[|run'| - 1] == r';
  }

  lemma SameThreads(r: ThreadHashRoom.Hist)
    requires ThreadHashRoom.Inv(r)
    ensures |r.log.time| == |r.log.number| == |r.s.threads|
  {
    hide ThreadHashMap.Inv, ThreadHashRoom.RoomOk, ThreadHashRoom.SizesOk, ThreadHashRoom.BookOk;
  }

  lemma FirstTableStays(r: ThreadHashRoom.Hist, a: Action)
    requires ThreadHashRoom.Inv(r) && Enabled(r.s, a)
    ensures Next(r.s, a).tables != [] && |Next(r.s, a).tables[0]| == |r.s.tables[0]|
  {
    hide ThreadHashRoom.Inv, Step;
    LastTable(r);
    if a.Run? { StepGrows(r.s, a.t, a.ok, a.p); }
  }

  lemma Go(s: State, a: Action)
    requires Within(s) && Enabled(s, a) && Callers(Next(s, a)) <= Limit(s)
    ensures Within(Next(s, a)) && Limit(Next(s, a)) == Limit(s)
  {
    hide ReachableBy, Callers, Enabled, Next, ThreadHashRoom.Inv, ThreadHashRoom.Reachable;
    var r: ThreadHashRoom.Hist :| ReachableBy(r, Limit(s)) && r.s == s;
    AlsoReachable(r, Limit(s));
    ThreadHashRoom.ReachableInv(r);
    FirstTableStays(r, a);
    var r' := GoFrom(r, a, Limit(s));
  }

  /** An operation adds no caller. */
  lemma NoMoreCallers(s: State, t: nat, p: nat)
    requires Enabled(s, Run(t, true, p))
    ensures Callers(Step(s, t, true, p)) <= Callers(s)
  {
    ThreadHashMap.StepOf(s, t, true, p);
    InsideStays(s, t, p);
    hide Step;
    SumUpdate(s.threads, InsideFn(), t, Step(s, t, true, p).threads[t]);
  }

  lemma InsideOfSearch(s: State, t: nat)
    requires t < |s.threads| == |s.hash|
    ensures s.threads[t].pc.Probe? ==>
      var s' := ProbeStep(s, t, s.threads[t].pc.main, s.threads[t].pc.h, s.threads[t].pc.d);
      |s'.threads| == |s.threads| && Inside(s'.threads[t]) <= Inside(s.threads[t])
    ensures s.threads[t].pc.CopyTo? ==>
      var s' := CopyStep(s, t, s.threads[t].pc.main, s.threads[t].pc.d, s.threads[t].pc.value);
      |s'.threads| == |s.threads| && Inside(s'.threads[t]) <= Inside(s.threads[t])
    ensures s.threads[t].pc.Erase? ==>
      var s' := EraseStep(s, t, s.threads[t].pc.h, s.threads[t].pc.d);
      |s'.threads| == |s.threads| && Inside(s'.threads[t]) <= Inside(s.threads[t])
  {
    hide At, Put, Index;
  }

  lemma InsideStays(s: State, t: nat, p: nat)
    requires Enabled(s, Run(t, true, p))
    ensures |Step(s, t, true, p).threads| == |s.threads| && Inside(Step(s, t, true, p).threads[t]) <= Inside(s.threads[t])
  {
    hide At, Put, NewCapacity, ProbeStep, CopyStep, EraseStep;
    InsideOfSearch(s, t);
  }

  lemma FewCallers(s: State)
    requires Within(s)
    ensures Callers(s) <= Limit(s)
  {
    hide ThreadHashRoom.Leads, ThreadHashRoom.Init, Callers;
    var r: ThreadHashRoom.Hist :| ReachableBy(r, Limit(s)) && r.s == s;
    var run :| SlimRun(run, Limit(s)) && run[|run| - 1] == r;
  }

  /** The next operation of thread t. */
  lemma Does(s: State, t: nat, p: nat, s': State)
    requires Ready(s, t) && Enabled(s, Run(t, true, p)) && s' == Step(s, t, true, p)
    ensures Within(s')
  {
    hide Step, Within, Callers;
    FewCallers(s);
    NoMoreCallers(s, t, p);
    Go(s, Run(t, true, p));
  }

  // ----- slots -----

  /** The d-th slot on the way of an id with hash 0. */
  lemma AtSlot(table: seq<Slot>, d: nat)
    requires d < |table|
    ensures Index(table, 0, d) == d && At(table, 0, d) == table[d].key
  {
  }

  lemma PutSlot(s: State, h: nat, d: nat, x: Slot)
    requires h < |s.tables| && d < |s.tables[h]|
    ensures Put(s.tables, h, 0, d, x) == s.tables[h := s.tables[h][d := x]]
  {
    AtSlot(s.tables[h], d);
  }

  /** Slots from d to k that a search for t passes. */
  ghost predicate OthersUpTo(table: seq<Slot>, t: nat, d: nat, k: nat) {
    k <= |table| && forall i :: d <= i < k ==> table[i].key != Empty && table[i].key != Id(t)
  }

  ghost predicate IdsUpTo(table: seq<Slot>, d: nat, k: nat) { k <= |table| && forall i :: d <= i < k ==> table[i].key.Id? }

  /** In the same loop, at slot d. */
  function Moved(pc: PC, d: nat): PC {
    match pc
    case Probe(main, h, _) => Probe(main, h, d)
    case Erase(h, _) => Erase(h, d)
    case CopyTo(main, _, value) => CopyTo(main, d, value)
    case TryTomb(main, _, p) => TryTomb(main, d, p)
    case _ => pc
  }

  predicate InLoop(pc: PC) { pc.Probe? || pc.Erase? || pc.CopyTo? || pc.TryTomb? }

  /** The thread would pass the slots from d to k of the table that it probes. */
  ghost predicate CanPass(s: State, t: nat, pc: PC, d: nat, k: nat) {
    InLoop(pc) && ThreadHashRoom.ProbedTable(pc) < |s.tables|
    && var table := s.tables[ThreadHashRoom.ProbedTable(pc)];
       if pc.CopyTo? || pc.TryTomb? then IdsUpTo(table, d, k) else OthersUpTo(table, t, d, k)
  }

  lemma MovesOne(s: State, t: nat)
    requires Ready(s, t) && InLoop(s.threads[t].pc) && CanPass(s, t, s.threads[t].pc, s.threads[t].pc.d, s.threads[t].pc.d + 1)
    ensures Within(Goto(s, t, Moved(s.threads[t].pc, s.threads[t].pc.d + 1)))
  {
    hide Within, At, Index;
    var pc := s.threads[t].pc;
    AtSlot(s.tables[ThreadHashRoom.ProbedTable(pc)], pc.d);
    var s1 := Goto(s, t, Moved(pc, pc.d + 1));
    if pc.TryTomb? {
      var s0 := Goto(s, t, TryEmpty(pc.main, pc.d, pc.p));
      Does(s, t, 0, s0);
      assert s1 == Goto(s0, t, Moved(pc, pc.d + 1));
      Does(s0, t, 0, s1);
    } else {
      Does(s, t, 0, s1);
    }
  }

  lemma {:induction false} MovesOn(s: State, t: nat, k: nat)
    requires Ready(s, t) && InLoop(s.threads[t].pc) && s.threads[t].pc.d <= k && CanPass(s, t, s.threads[t].pc, s.threads[t].pc.d, k)
    ensures Within(Goto(s, t, Moved(s.threads[t].pc, k)))
    decreases k - s.threads[t].pc.d
  {
    hide Within, Step;
    var pc := s.threads[t].pc;
    if pc.d < k {
      MovesOne(s, t);
      var s1 := Goto(s, t, Moved(pc, pc.d + 1));
      MovesOn(s1, t, k);
      assert Goto(s1, t, Moved(s1.threads[t].pc, k)) == Goto(s, t, Moved(pc, k));
    } else {
      assert Goto(s, t, Moved(pc, k)) == s;
    }
  }

  // ----- calls -----

  /** A call begins, if that is not one too many, and searches the main table up to slot k. */
  lemma Searches(s: State, t: nat, k: nat)
    requires Ready(s, t) && s.threads[t].pc == Idle && Callers(s) < Limit(s) && OthersUpTo(s.tables[Main(s)], t, 0, k)
    ensures Within(Set(s, t, Thread(Probe(Main(s), Main(s), k), s.threads[t].bound, None)))
  {
    hide Within, OthersUpTo;
    var bound, main := s.threads[t].bound, Main(s);
    var s1 := Set(s, t, Thread(LoadMain, bound, None));
    assert s1 == Next(s, Call(t));
    SumUpdate(s.threads, InsideFn(), t, s1.threads[t]);
    Go(s, Call(t));
    var s2 := Set(s, t, Thread(Probe(main, main, 0), bound, None));
    assert s2 == Goto(s1, t, Probe(main, main, 0));
    Does(s1, t, 0, s2);
    MovesOn(s2, t, k);
    assert Goto(s2, t, Probe(main, main, k)) == Set(s, t, Thread(Probe(main, main, k), bound, None));
  }

  lemma Exits(s: State, t: nat)
    requires Ready(s, t) && s.threads[t].pc == Idle && s.threads[t].bound.Some?
    ensures Within(Goto(s, t, Erase(Main(s), 0)))
  {
    hide Within;
    FewCallers(s);
    SumUpdate(s.threads, InsideFn(), t, s.threads[t].(pc := Erase(Main(s), 0)));
    Go(s, Exit(t));
  }

  lemma IsReborn(s: State, t: nat)
    requires Ready(s, t) && s.threads[t].pc == Dead
    ensures Within(Set(s, t, FRESH))
  {
    hide Within;
    FewCallers(s);
    SumUpdate(s.threads, InsideFn(), t, FRESH);
    Go(s, Reborn(t));
  }

  /** The number drawn is small enough: the thread gets to the point where it needs a producer. */
  lemma Joins(s: State, t: nat, main: nat)
    requires Ready(s, t) && s.threads[t].pc == CountUp(main) && 0 <= s.count && s.count + 1 < Capacity(s, main) / 2
    ensures Within(Goto(s.(count := s.count + 1), t, Recycle(main)))
  {
    hide Within;
    var n: nat := s.count + 1;
    var s0 := s.(count := n);
    var s1 := Goto(s0, t, Check(main, n));
    Does(s, t, 0, s1);
    Passes(s1, t, main, n);
    assert Goto(s1, t, Recycle(main)) == Goto(s0, t, Recycle(main));
  }

  /** So it is if the table is being replaced. */
  lemma Passes(s: State, t: nat, main: nat, n: nat)
    requires Ready(s, t) && s.threads[t].pc == Check(main, n)
    requires n < Capacity(s, main) / 2 || (s.resizing && n < Capacity(s, main) / 2 + Capacity(s, main) / 4)
    ensures Within(Goto(s, t, Recycle(main)))
  {
    hide Within;
    var s1 := Goto(s, t, Room(main, n));
    Does(s, t, 0, s1);
    assert Goto(s1, t, Recycle(main)) == Goto(s, t, Recycle(main));
    Does(s1, t, 0, Goto(s, t, Recycle(main)));
  }

  function Activated(inactive: seq<bool>, p: nat): seq<bool> { if p < |inactive| then inactive[p := false] else inactive + [false] }

  /** The thread gets producer p and comes to slot k. */
  lemma Recycles(s: State, t: nat, main: nat, k: nat, p: nat)
    requires Ready(s, t) && s.threads[t].pc == Recycle(main) && main < |s.tables| && IdsUpTo(s.tables[main], 0, k)
    requires p == |s.inactive| || (p < |s.inactive| && s.inactive[p])
    ensures Within(Goto(s.(inactive := Activated(s.inactive, p)), t, TryTomb(main, k, p)))
  {
    hide Within, IdsUpTo;
    var s0 := s.(inactive := Activated(s.inactive, p));
    var s1 := Goto(s0, t, TryTomb(main, 0, p));
    Does(s, t, p, s1);
    MovesOn(s1, t, k);
    assert Goto(s1, t, TryTomb(main, k, p)) == Goto(s0, t, TryTomb(main, k, p));
  }

  /** It takes over the tombstone there, and gives its number back. */
  lemma TakesTombstone(s: State, t: nat, main: nat, k: nat, p: nat)
    requires Ready(s, t) && s.threads[t].pc == TryTomb(main, k, p) && main < |s.tables| && k < |s.tables[main]|
    requires s.tables[main][k].key == Tomb
    ensures Within(Set(s.(tables := s.tables[main := s.tables[main][k := Slot(Id(t), p)]], count := s.count - 1), t,
                       Thread(Idle, Some(p), Some(p))))
  {
    hide Within, At, Index, Put;
    AtSlot(s.tables[main], k);
    PutSlot(s, main, k, Slot(Id(t), p));
    var s1 := Bind(s, t, main, k, p, Uncount);
    Does(s, t, 0, s1);
    Does(s1, t, 0, Goto(s1.(count := s.count - 1), t, Idle));
    assert Goto(s1.(count := s.count - 1), t, Idle)
      == Set(s.(tables := s.tables[main := s.tables[main][k := Slot(Id(t), p)]], count := s.count - 1), t, Thread(Idle, Some(p), Some(p)));
  }

  /** It takes the empty slot there. */
  lemma TakesEmptySlot(s: State, t: nat, main: nat, k: nat, p: nat)
    requires Ready(s, t) && s.threads[t].pc == TryTomb(main, k, p) && main < |s.tables| && k < |s.tables[main]|
    requires s.tables[main][k].key == Empty
    ensures Within(Set(s.(tables := s.tables[main := s.tables[main][k := Slot(Id(t), p)]]), t, Thread(Idle, Some(p), Some(p))))
  {
    hide Within, At, Index, Put;
    AtSlot(s.tables[main], k);
    PutSlot(s, main, k, Slot(Id(t), p));
    var s1 := Goto(s, t, TryEmpty(main, k, p));
    Does(s, t, 0, s1);
    Does(s1, t, 0, Bind(s1, t, main, k, p, Idle));
    assert Bind(s1, t, main, k, p, Idle)
      == Set(s.(tables := s.tables[main := s.tables[main][k := Slot(Id(t), p)]]), t, Thread(Idle, Some(p), Some(p)));
  }

  /** The search leaves table h at an empty slot for the one before. */
  lemma LooksFurther(s: State, t: nat, main: nat, h: nat, k: nat)
    requires Ready(s, t) && s.threads[t].pc == Probe(main, h, k) && h < |s.tables| && k < |s.tables[h]| && s.tables[h][k].key == Empty
    ensures Within(Goto(s, t, if h == 0 then CountUp(main) else Probe(main, h - 1, 0)))
  {
    hide Within, At, Index;
    AtSlot(s.tables[h], k);
    Does(s, t, 0, Goto(s, t, if h == 0 then CountUp(main) else Probe(main, h - 1, 0)));
  }

  /** A copy of the id goes into the empty slot there. */
  lemma CopyLands(s: State, t: nat, k: nat)
    requires Ready(s, t) && s.threads[t].pc == CopyTo(1, k, 0) && 1 < |s.tables| && k < |s.tables[1]| && s.tables[1][k].key == Empty
    ensures Within(Set(s.(tables := s.tables[1 := s.tables[1][k := Slot(Id(t), 0)]]), t, Thread(Idle, s.threads[t].bound, Some(0))))
  {
    hide Within, At, Index, Put;
    AtSlot(s.tables[1], k);
    PutSlot(s, 1, k, Slot(Id(t), 0));
    Does(s, t, 0, Set(s.(tables := s.tables[1 := s.tables[1][k := Slot(Id(t), 0)]]), t, Thread(Idle, s.threads[t].bound, Some(0))));
  }

  /** The id in slot k of table h becomes a tombstone. */
  lemma Erases(s: State, t: nat, h: nat, k: nat)
    requires Ready(s, t) && s.threads[t].pc == Erase(h, k) && h < |s.tables| && k < |s.tables[h]| && s.tables[h][k] == Slot(Id(t), 0)
    ensures Within(Goto(s.(tables := s.tables[h := s.tables[h][k := TOMB]]), t, if h == 0 then Retire else Erase(h - 1, 0)))
  {
    hide Within, At, Index, Put;
    AtSlot(s.tables[h], k);
    PutSlot(s, h, k, TOMB);
    Does(s, t, 0, Goto(s.(tables := s.tables[h := s.tables[h][k := TOMB]]), t, if h == 0 then Retire else Erase(h - 1, 0)));
  }

  lemma Retires(s: State, t: nat)
    requires Ready(s, t) && s.threads[t].pc == Retire && s.threads[t].bound == Some(0) && s.inactive != []
    ensures Within(Set(s.(inactive := s.inactive[0 := true]), t, Thread(Dead, None, None)))
  {
    hide Within;
    Does(s, t, 0, Set(s.(inactive := s.inactive[0 := true]), t, Thread(Dead, None, None)));
  }
}
