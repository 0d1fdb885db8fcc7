/** How far the tables can drift: by the number of threads that are inside the search at once, less the one
    that grows the table, for each time it grows.  With few enough of those, every probe loop ends, however
    many threads there are. */
module ThreadHashBound {
  import opened Counting
  import opened Options
  import opened ThreadHashes
  import opened ThreadHashRoom
  import ThreadHashMap

  // ----- threads that go on with a table that is no longer the main one -----

  predicate SawMain(pc: PC) {
    pc.Probe? || pc.CountUp? || pc.Check? || pc.Unlock? || pc.Room? || pc.Recycle? || pc.TryTomb? || pc.TryEmpty?
  }

  function Stale(th: Thread, h: nat): int { if SawMain(th.pc) && th.pc.main < h then 1 else 0 }

  /** Inside get_or_add_implicit_producer. */
  function Inside(th: Thread): int {
    if th.pc.Idle? || th.pc.Dead? || th.pc.Erase? || th.pc.Retire? then 0 else 1
  }

  ghost function StaleFn(h: nat): Thread -> int { (th: Thread) => Stale(th, h) }
  ghost function InsideFn(): Thread -> int { (th: Thread) => Inside(th) }
  ghost function Callers(s: State): int { Sum(s.threads, InsideFn()) }

  lemma {:induction false} StaleAreInside(threads: seq<Thread>, h: nat)
    ensures 0 <= Sum(threads, StaleFn(h)) <= Sum(threads, InsideFn())
  {
    if threads != [] {
      StaleAreInside(threads[1..], h);
    }
  }

  ghost predicate DriftOk(r: Hist, c: nat) {
    && |r.log.books| == |r.s.tables| > 0
    && (forall h :: 0 <= h < |r.log.books| ==> r.log.books[h].drift + Sum(r.s.threads, StaleFn(h)) <= h * c)
    && (forall h :: 0 < h < |r.s.tables| ==> |r.s.tables[h]| >= 2 * |r.s.tables[h - 1]|)
  }

  /** What a step does to the tables' sizes and to the table that its thread saw. */
  ghost predicate Grown(s: State, s': State, t: nat)
    requires t < |s.threads|
  {
    && |s'.threads| == |s.threads|
    && (|s'.tables| == |s.tables| || (|s'.tables| == |s.tables| + 1 && s.tables != [] && s.threads[t].pc.Grow?
                                      && |s'.tables[|s.tables|]| >= 2 * |s.tables[|s.tables| - 1]|))
    && (forall h :: 0 <= h < |s.tables| ==> |s'.tables[h]| == |s.tables[h]|)
    && (SawMain(s'.threads[t].pc) ==>
          s'.threads[t].pc.main >= Main(s') || (SawMain(s.threads[t].pc) && s.threads[t].pc.main == s'.threads[t].pc.main))
  }

  lemma PutGrows(s: State, h: nat, hash: nat, d: nat, x: Slot)
    ensures var tables := Put(s.tables, h, hash, d, x);
      |tables| == |s.tables| && forall k :: 0 <= k < |tables| ==> |tables[k]| == |s.tables[k]|
  {
  }

  lemma ProbesGrow(s: State, t: nat)
    requires t < |s.threads| == |s.hash| && s.tables != []
    ensures s.threads[t].pc.Probe? ==> Grown(s, ProbeStep(s, t, s.threads[t].pc.main, s.threads[t].pc.h, s.threads[t].pc.d), t)
    ensures s.threads[t].pc.CopyTo? ==> Grown(s, CopyStep(s, t, s.threads[t].pc.main, s.threads[t].pc.d, s.threads[t].pc.value), t)
    ensures s.threads[t].pc.Erase? ==> Grown(s, EraseStep(s, t, s.threads[t].pc.h, s.threads[t].pc.d), t)
  {
    hide At, Put;
    var pc := s.threads[t].pc;
    if pc.CopyTo? { PutGrows(s, pc.main, s.hash[t], pc.d, Slot(Id(t), pc.value)); }
    if pc.Erase? && TableAt(s, pc.h) != [] {
      PutGrows(s, pc.h, s.hash[t], pc.d, Slot(Tomb, TableAt(s, pc.h)[Index(TableAt(s, pc.h), s.hash[t], pc.d)].value));
    }
  }

  lemma TriesGrow(s: State, t: nat)
    requires t < |s.threads| == |s.hash| && s.tables != []
    ensures s.threads[t].pc.TryTomb? ==> Grown(s, TombStep(s, t, s.threads[t].pc.main, s.threads[t].pc.d, s.threads[t].pc.p), t)
    ensures s.threads[t].pc.TryEmpty? ==> Grown(s, EmptyStep(s, t, s.threads[t].pc.main, s.threads[t].pc.d, s.threads[t].pc.p), t)
  {
    hide At, Index, Put;
    if s.threads[t].pc.TryTomb? || s.threads[t].pc.TryEmpty? {
      PutGrows(s, s.threads[t].pc.main, s.hash[t], s.threads[t].pc.d, Slot(Id(t), s.threads[t].pc.p));
    }
  }

  lemma TablesGrow(s: State, t: nat, ok: bool, p: nat)
    requires t < |s.threads| == |s.hash| && s.tables != [] && s.tables[|s.tables| - 1] != []
    ensures s.threads[t].pc.Grow? ==> Grown(s, GrowStep(s, t, s.threads[t].pc.n, ok), t)
    ensures s.threads[t].pc.Recycle? ==> Grown(s, RecycleStep(s, t, s.threads[t].pc.main, ok, p), t)
    ensures Grown(s, RetireStep(s, t), t)
  {
    hide NewCapacity;
  }

  lemma StepGrows(s: State, t: nat, ok: bool, p: nat)
    requires ThreadHashes.Enabled(s, Action.Run(t, ok, p)) && s.tables != [] && s.tables[|s.tables| - 1] != []
    ensures |Step(s, t, ok, p).threads| == |s.threads| && Grown(s, Step(s, t, ok, p), t)
  {
    hide ProbeStep, CopyStep, EraseStep, TombStep, EmptyStep, GrowStep, RecycleStep, RetireStep;
    ThreadHashMap.StepOf(s, t, ok, p);
    ProbesGrow(s, t);
    TriesGrow(s, t);
    TablesGrow(s, t, ok, p);
  }

  /** What a step does to the drift. */
  lemma NoteDrift(r: Hist, t: nat, s': State)
    requires t < |r.s.threads| == |r.s.hash| == |r.log.time| == |r.log.number|
    requires |r.log.books| == |r.s.tables| > 0 && (|s'.tables| == |r.s.tables| || (|s'.tables| == |r.s.tables| + 1 && r.s.threads[t].pc.Grow?))
    ensures var l' := Note(r, t, s'); var n := |r.log.books|;
      && |l'.books| == |s'.tables|
      && (forall h :: 0 <= h < n ==>
            l'.books[h].drift == r.log.books[h].drift + if ReusesTomb(r.s, t) && h > r.s.threads[t].pc.main then 1 else 0)
      && (|l'.books| > n ==> l'.books[n].drift == r.log.books[n - 1].drift)
  {
    hide At;
  }

  lemma ReuseLeaves(s: State, t: nat, ok: bool, p: nat)
    requires ThreadHashes.Enabled(s, Action.Run(t, ok, p)) && ReusesTomb(s, t)
    ensures SawMain(s.threads[t].pc) && t < |Step(s, t, ok, p).threads| && !SawMain(Step(s, t, ok, p).threads[t].pc)
  {
    hide At, Put;
  }

  lemma RunKeeps(r: Hist, t: nat, ok: bool, p: nat, c: nat)
    requires ThreadHashRoom.Inv(r) && ThreadHashRoom.Enabled(r, Action.Run(t, ok, p)) && DriftOk(r, c) && Callers(r.s) <= c + 1
    ensures DriftOk(ThreadHashRoom.Next(r, Action.Run(t, ok, p)), c)
  {
    hide ThreadHashMap.Inv, NumbersOk, SizesOk, RoomOk, Step, Note, ReusesTomb;
    var s, s' := r.s, Step(r.s, t, ok, p);
    LastTable(r);
    StepGrows(s, t, ok, p);
    NoteDrift(r, t, s');
    ThreadHashMap.StepOf(s, t, ok, p);
    if ReusesTomb(s, t) { ReuseLeaves(s, t, ok, p); }
    forall h | 0 <= h < |Note(r, t, s').books| ensures Note(r, t, s').books[h].drift + Sum(s'.threads, StaleFn(h)) <= h * c {
      DriftAt(r, s', t, h, c);
    }
  }

  lemma DriftAt(r: Hist, s': State, t: nat, h: nat, c: nat)
    requires t < |r.s.threads| == |s'.threads| && s'.threads == r.s.threads[t := s'.threads[t]] && DriftOk(r, c) && Callers(r.s) <= c + 1
    requires t < |r.s.threads| == |r.s.hash| == |r.log.time| == |r.log.number| && Grown(r.s, s', t)
    requires ReusesTomb(r.s, t) ==> SawMain(r.s.threads[t].pc) && !SawMain(s'.threads[t].pc)
    requires h < |Note(r, t, s').books|
    ensures Note(r, t, s').books[h].drift + Sum(s'.threads, StaleFn(h)) <= h * c
  {
    hide Note, ReusesTomb, Callers;
    NoteDrift(r, t, s');
    var n := |r.s.tables|;
    if h < n {
      SumUpdate(r.s.threads, StaleFn(h), t, s'.threads[t]);
      assert Stale(s'.threads[t], h) <= Stale(r.s.threads[t], h);
    } else {
      SumUpdate(r.s.threads, StaleFn(h), t, s'.threads[t]);
      NewTable(r.s, s', t, h, c);
      StaleAreInside(r.s.threads, n - 1);
      OneMoreTable(n, c);
    }
  }

  lemma OneMoreTable(n: nat, c: nat)
    requires n > 0
    ensures (n - 1) * c + c == n * c
  {
  }

  /** The thread that adds the table is a caller, too, and goes on with the new one. */
  lemma NewTable(s: State, s': State, t: nat, h: nat, c: nat)
    requires t < |s.threads| == |s'.threads| && s'.threads == s.threads[t := s'.threads[t]]
    requires Stale(s'.threads[t], h) == 0 && Inside(s.threads[t]) == 1 && Callers(s) <= c + 1
    ensures Sum(s'.threads, StaleFn(h)) <= c
  {
    var gone := Thread(Dead, None, None);
    StaleAreInside(s.threads[t := gone], h);
    SumUpdate(s.threads, InsideFn(), t, gone);
    SumUpdate(s.threads, StaleFn(h), t, gone);
    SumUpdate(s.threads, StaleFn(h), t, s'.threads[t]);
  }

  lemma LastTable(r: Hist)
    requires ThreadHashRoom.Inv(r)
    ensures |r.log.books| == |r.s.tables| > 0 && r.s.tables[|r.s.tables| - 1] != []
  {
    hide ThreadHashMap.Inv, RoomOk, BookOk, CountedUntil;
  }

  lemma CallKeeps(r: Hist, a: Action, c: nat)
    requires ThreadHashRoom.Enabled(r, a) && DriftOk(r, c) && !a.Run?
    ensures DriftOk(ThreadHashRoom.Next(r, a), c)
  {
    var s, s' := r.s, ThreadHashes.Next(r.s, a);
    forall h | 0 <= h < |r.log.books| ensures Sum(s'.threads, StaleFn(h)) <= Sum(s.threads, StaleFn(h)) {
      SumUpdate(s.threads, StaleFn(h), a.t, s'.threads[a.t]);
    }
  }

  // ----- runs with at most c callers at a time -----

  ghost predicate SlimRun(run: seq<Hist>, c: nat) {
    IsRun(run) && forall i :: 0 <= i < |run| ==> Callers(run[i].s) <= c
  }

  ghost predicate ReachableBy(r: Hist, c: nat) { exists run :: SlimRun(run, c) && run[|run| - 1] == r }

  lemma {:induction false} RunDrift(run: seq<Hist>, c: nat, i: nat)
    requires SlimRun(run, c + 1) && i < |run|
    ensures DriftOk(run[i], c)
  {
    hide ThreadHashRoom.Inv, ThreadHashRoom.Enabled, ThreadHashRoom.Next, DriftOk, Callers;
    if i == 0 {
      StartsWithoutDrift(run[0], c);
    } else {
      RunDrift(run, c, i - 1);
      RunInv(run, i - 1);
      assert Leads(run[i - 1], run[i - 1 + 1]);
      var a :| Moves(run[i - 1], a, run[i]);
      assert Callers(run[i - 1].s) <= c + 1;
      if a.Run? { RunKeeps(run[i - 1], a.t, a.ok, a.p, c); } else { CallKeeps(run[i - 1], a, c); }
    }
  }

  lemma StartsWithoutDrift(r: Hist, c: nat)
    requires ThreadHashRoom.Init(r)
    ensures DriftOk(r, c)
  {
    SumZero(r.s.threads, StaleFn(0));
  }

  /** With c other callers at a time, a table has drifted by no more than c for each table before it. */
  lemma DriftIsBounded(r: Hist, c: nat, h: nat)
    requires ReachableBy(r, c + 1) && h < |r.s.tables|
    ensures h < |r.log.books| && r.log.books[h].drift <= h * c
    ensures h > 0 ==> |r.s.tables[h]| >= 2 * |r.s.tables[h - 1]|
  {
    hide DriftOk, Leads, ThreadHashRoom.Init;
    var run :| SlimRun(run, c + 1) && run[|run| - 1] == r;
    RunDrift(run, c, |run| - 1);
    assert DriftOk(r, c);
    DriftFact(r, c, h);
  }

  lemma DriftFact(r: Hist, c: nat, h: nat)
    requires DriftOk(r, c) && h < |r.s.tables|
    ensures h < |r.log.books| && r.log.books[h].drift <= h * c
    ensures h > 0 ==> |r.s.tables[h]| >= 2 * |r.s.tables[h - 1]|
  {
    StaleAreInside(r.s.threads, h);
  }

  /** The tables double, so they outgrow the drift. */
  lemma {:induction false} TablesOutgrowDrift(r: Hist, c: nat, h: nat)
    requires ReachableBy(r, c + 1) && h < |r.s.tables| && 2 * c <= |r.s.tables[0]|
    ensures h < |r.log.books| && 4 * r.log.books[h].drift <= |r.s.tables[h]|
    ensures 4 * (h * c) <= |r.s.tables[h]| && 2 * c <= |r.s.tables[h]|
  {
    hide ReachableBy;
    DriftIsBounded(r, c, h);
    if h == 1 {
      TablesOutgrowDrift(r, c, 0);
    } else if h > 1 {
      TablesOutgrowDrift(r, c, h - 1);
      assert h * c == (h - 1) * c + c && (h - 1) * c >= c by { MulAtLeastOnce(h - 1, c); }
    }
  }

  lemma MulAtLeastOnce(n: nat, c: nat)
    requires n > 0
    ensures n * c >= c && (n + 1) * c == n * c + c
  {
  }

  lemma MoreCallers(r: Hist, c: nat, c': nat)
    requires ReachableBy(r, c) && c <= c'
    ensures ReachableBy(r, c')
  {
    hide Leads, ThreadHashRoom.Init;
    var run :| SlimRun(run, c) && run[|run| - 1] == r;
    assert SlimRun(run, c');
  }

  /** With no more threads inside the search at once than half the slots of the first table and one, every
      probe loop ends before it has gone round its table. */
  lemma ProbeLoopsEnd(r: Hist, c: nat, t: nat)
    requires ReachableBy(r, c) && r.s.tables != [] && 2 * c <= |r.s.tables[0]| + 2
    requires t < |r.s.threads| && Probing(r.s.threads[t].pc)
    ensures ProbedTable(r.s.threads[t].pc) < |r.s.tables|
    ensures r.s.threads[t].pc.d < |r.s.tables[ProbedTable(r.s.threads[t].pc)]|
  {
    hide ReachableBy, Reachable, ThreadHashRoom.Inv;
    AlsoReachable(r, c);
    ReachableInv(r);
    ProbesATable(r, t);
    var h := ProbedTable(r.s.threads[t].pc);
    var others := if c > 0 then c - 1 else 0;
    MoreCallers(r, c, others + 1);
    TablesOutgrowDrift(r, others, h);
    LastTable(r);
    ProbingEnds(r, t);
  }

  lemma AlsoReachable(r: Hist, c: nat)
    requires ReachableBy(r, c)
    ensures Reachable(r)
  {
    hide Leads, ThreadHashRoom.Init;
    var run :| SlimRun(run, c) && run[|run| - 1] == r;
  }

  lemma ProbesATable(r: Hist, t: nat)
    requires ThreadHashRoom.Inv(r) && t < |r.s.threads| && Probing(r.s.threads[t].pc)
    ensures ProbedTable(r.s.threads[t].pc) < |r.s.tables|
  {
    hide NumbersOk, SizesOk, RoomOk, ThreadHashMap.Found, ThreadHashMap.TableOk;
    assert ThreadHashMap.PcOk(r.s.tables, r.s.hash[t], t, r.s.threads[t]);
  }
}
