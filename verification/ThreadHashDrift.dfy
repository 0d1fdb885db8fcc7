/** How far the tables can drift: a run after which the main table has no empty slot, with half as many callers
    at a time as the first table has slots, and two.  One caller less, and every probe loop ends.

    All ids have the same hash.  Thread 2 is bound in the first table, of `n` slots.  Half of n and one more
    see that table as the main one and sleep; thread 1 grows it.  The second table is twice as large.
    Thread 2 is copied to it and exits, which leaves tombstones in both; a new thread with its id takes over
    the one in the second table, for which it gives its number back.  One after another, each sleeper wakes
    up and takes over the tombstone in the first table, for nothing, and then does the same.  Other threads
    fill the second table up to half, and once it is about to be replaced, up to the end. */
module ThreadHashDrift {
  import opened Counting
  import opened Options
  import opened ThreadHashes
  import opened ThreadHashBound
  import opened ThreadHashSteps
  import ThreadHashRoom

  const GONE: Thread := Thread(Dead, None, None)

  function Bound(p: nat): Thread { Thread(Idle, Some(p), Some(p)) }

  function InCall(pc: PC): Thread { Thread(pc, None, None) }

  // ----- one table, or two -----

  function Small(n: nat, first: Slot): (table: seq<Slot>)
    ensures |table| == n
  {
    seq(n, i => if i == 0 then first else FREE)
  }

  /** The ids of threads 1 to m. */
  function Large(n: nat, m: nat): (table: seq<Slot>)
    ensures |table| == n
  {
    seq(n, (i: nat) => if i < m then Slot(Id(i + 1), i + 1) else FREE)
  }

  function One(n: nat, first: Slot, count: int, inactive: seq<bool>, threads: seq<Thread>): State {
    State([Small(n, first)], count, false, inactive, seq(|threads|, _ => 0), threads)
  }

  function Two(n: nat, first: Slot, large: seq<Slot>, count: int, inactive: seq<bool>, threads: seq<Thread>): State {
    State([Small(n, first), large], count, false, inactive, seq(|threads|, _ => 0), threads)
  }

  lemma FirstSlot(n: nat, x: Slot, y: Slot)
    requires n > 1
    ensures Small(n, x)[0 := y] == Small(n, y) && Small(n, x)[0] == x && Small(n, x)[1] == FREE
    ensures forall w :: x.key != Empty && x.key != Id(w) ==> OthersUpTo(Small(n, x), w, 0, 1)
  {
  }

  lemma LargeSlots(n: nat, m: nat, x: Slot)
    requires m < n
    ensures IdsUpTo(Large(n, m), 0, m) && OthersUpTo(Large(n, m), m + 1, 0, m) && Large(n, m)[m] == FREE
    ensures IdsUpTo(Large(n, m)[m := x], 0, m) && OthersUpTo(Large(n, m)[m := x], m + 1, 0, m)
    ensures x.key == Tomb ==> OthersUpTo(Large(n, m)[m := x], m + 1, 0, m + 1)
    ensures m + 1 < n ==> Large(n, m)[m := x][m + 1] == FREE
    ensures Large(n, m)[m := Slot(Id(m + 1), m + 1)] == Large(n, m + 1)
  {
  }

  /** Callers are among the threads from lo to hi. */
  ghost predicate CallersIn(threads: seq<Thread>, lo: nat, hi: nat) {
    lo <= hi <= |threads| && forall i :: 0 <= i < |threads| && Inside(threads[i]) == 1 ==> lo <= i < hi
  }

  lemma CallersCount(threads: seq<Thread>, lo: nat, hi: nat)
    requires CallersIn(threads, lo, hi)
    ensures Sum(threads, InsideFn()) <= hi - lo
  {
    SumWithin(threads, InsideFn(), lo, hi);
  }

  // ----- the sleepers -----

  /** A thread that saw the first table as the main one takes over the tombstone there. */
  lemma SleeperBinds(n: nat, large: seq<Slot>, count: int, inactive: seq<bool>, threads: seq<Thread>, w: nat)
    requires Within(Two(n, TOMB, large, count, inactive, threads)) && n > 1
    requires w < |threads| && threads[w] == InCall(Recycle(0)) && inactive != [] && inactive[0]
    ensures Within(Two(n, Slot(Id(w), 0), large, count - 1, inactive[0 := false], threads[w := Bound(0)]))
  {
    hide Within, Small;
    var s := Two(n, TOMB, large, count, inactive, threads);
    FirstSlot(n, TOMB, Slot(Id(w), 0));
    Recycles(s, w, 0, 0, 0);
    assert Activated(inactive, 0) == inactive[0 := false];
    var s1 := Goto(s.(inactive := inactive[0 := false]), w, TryTomb(0, 0, 0));
    TakesTombstone(s1, w, 0, 0, 0);
    assert Set(s1.(tables := s1.tables[0 := s1.tables[0][0 := Slot(Id(w), 0)]], count := s1.count - 1), w, Bound(0))
      == Two(n, Slot(Id(w), 0), large, count - 1, inactive[0 := false], threads[w := Bound(0)]);
  }

  /** When it calls again, it finds itself in the first table ... */
  lemma SleeperIsFound(n: nat, m: nat, count: int, inactive: seq<bool>, threads: seq<Thread>, w: nat)
    requires Within(Two(n, Slot(Id(w), 0), Large(2 * n, m), count, inactive, threads)) && n > 1 && m < 2 * n && w == m + 1
    requires w < |threads| && threads[w] == Bound(0) && Sum(threads, InsideFn()) < n / 2 + 2
    ensures Within(Two(n, Slot(Id(w), 0), Large(2 * n, m), count, inactive, threads[w := Thread(CopyTo(1, 0, 0), Some(0), None)]))
  {
    hide Within, Small, Large, OthersUpTo, IdsUpTo, At, Index;
    var s := Two(n, Slot(Id(w), 0), Large(2 * n, m), count, inactive, threads);
    FirstSlot(n, Slot(Id(w), 0), TOMB);
    LargeSlots(2 * n, m, TOMB);
    Searches(s, w, m);
    var s1, s2 := Set(s, w, Thread(Probe(1, 1, m), Some(0), None)), Set(s, w, Thread(Probe(1, 0, 0), Some(0), None));
    LooksFurther(s1, w, 1, 1, m);
    assert s2 == Goto(s1, w, Probe(1, 0, 0));
    AtSlot(Small(n, Slot(Id(w), 0)), 0);
    Does(s2, w, 0, Goto(s2, w, CopyTo(1, 0, 0)));
    assert Goto(s2, w, CopyTo(1, 0, 0))
      == Two(n, Slot(Id(w), 0), Large(2 * n, m), count, inactive, threads[w := Thread(CopyTo(1, 0, 0), Some(0), None)]);
  }

  /** ... and is copied to the next slot of the second. */
  lemma SleeperIsCopied(n: nat, m: nat, count: int, inactive: seq<bool>, threads: seq<Thread>, w: nat)
    requires Within(Two(n, Slot(Id(w), 0), Large(2 * n, m), count, inactive, threads)) && n > 1 && m < 2 * n && w == m + 1
    requires w < |threads| && threads[w] == Thread(CopyTo(1, 0, 0), Some(0), None)
    ensures Within(Two(n, Slot(Id(w), 0), Large(2 * n, m)[m := Slot(Id(w), 0)], count, inactive, threads[w := Bound(0)]))
  {
    hide Within, Small, Large, OthersUpTo, IdsUpTo, At, Index;
    var s := Two(n, Slot(Id(w), 0), Large(2 * n, m), count, inactive, threads);
    LargeSlots(2 * n, m, TOMB);
    MovesOn(s, w, m);
    var s1 := Goto(s, w, CopyTo(1, m, 0));
    CopyLands(s1, w, m);
    assert Set(s1.(tables := s1.tables[1 := s1.tables[1][m := Slot(Id(w), 0)]]), w, Bound(0))
      == Two(n, Slot(Id(w), 0), Large(2 * n, m)[m := Slot(Id(w), 0)], count, inactive, threads[w := Bound(0)]);
  }

  /** It exits, and leaves tombstones in the second table ... */
  lemma SleeperLeaves(n: nat, m: nat, count: int, inactive: seq<bool>, threads: seq<Thread>, w: nat)
    requires n > 1 && m < 2 * n && Within(Two(n, Slot(Id(w), 0), Large(2 * n, m)[m := Slot(Id(w), 0)], count, inactive, threads))
    requires w == m + 1 && w < |threads| && threads[w] == Bound(0)
    ensures Within(Two(n, Slot(Id(w), 0), Large(2 * n, m)[m := TOMB], count, inactive, threads[w := Thread(Erase(0, 0), Some(0), Some(0))]))
  {
    hide Within, Small, Large, OthersUpTo, IdsUpTo, At, Index, Step;
    var large := Large(2 * n, m)[m := Slot(Id(w), 0)];
    var s := Two(n, Slot(Id(w), 0), large, count, inactive, threads);
    LargeSlots(2 * n, m, Slot(Id(w), 0));
    Exits(s, w);
    var s1, s2 := Goto(s, w, Erase(1, 0)), Goto(s, w, Erase(1, m));
    MovesOn(s1, w, m);
    assert s2 == Goto(s1, w, Erase(1, m));
    Erases(s2, w, 1, m);
    assert large[m := TOMB] == Large(2 * n, m)[m := TOMB];
    assert Goto(s2.(tables := s2.tables[1 := s2.tables[1][m := TOMB]]), w, Erase(0, 0))
      == Two(n, Slot(Id(w), 0), Large(2 * n, m)[m := TOMB], count, inactive, threads[w := Thread(Erase(0, 0), Some(0), Some(0))]);
  }

  /** ... and in the first. */
  lemma SleeperExits(n: nat, large: seq<Slot>, count: int, inactive: seq<bool>, threads: seq<Thread>, w: nat)
    requires n > 1 && Within(Two(n, Slot(Id(w), 0), large, count, inactive, threads))
    requires w < |threads| && threads[w] == Thread(Erase(0, 0), Some(0), Some(0)) && inactive != []
    ensures Within(Two(n, TOMB, large, count, inactive[0 := true], threads[w := GONE]))
  {
    hide Within, Small, At, Index, Step;
    var s := Two(n, Slot(Id(w), 0), large, count, inactive, threads);
    FirstSlot(n, Slot(Id(w), 0), TOMB);
    Erases(s, w, 0, 0);
    var s1 := Goto(s.(tables := [Small(n, TOMB), large]), w, Retire);
    assert s1 == Goto(s.(tables := s.tables[0 := s.tables[0][0 := TOMB]]), w, Retire);
    Retires(s1, w);
    assert Set(s1.(inactive := inactive[0 := true]), w, GONE) == Two(n, TOMB, large, count, inactive[0 := true], threads[w := GONE]);
  }

  /** A new thread finds its id in neither table, with slot k free in the second ... */
  lemma FindsNothing(n: nat, large: seq<Slot>, k: nat, count: int, inactive: seq<bool>, threads: seq<Thread>, w: nat)
    requires n > 1 && Within(Two(n, TOMB, large, count, inactive, threads)) && Sum(threads, InsideFn()) < n / 2 + 2
    requires w < |threads| && threads[w] == FRESH && k < |large| && OthersUpTo(large, w, 0, k) && large[k] == FREE
    ensures Within(Two(n, TOMB, large, count, inactive, threads[w := InCall(CountUp(1))]))
  {
    hide Within, Small, OthersUpTo, At, Index, Step;
    var s := Two(n, TOMB, large, count, inactive, threads);
    FirstSlot(n, TOMB, TOMB);
    Searches(s, w, k);
    var s1, s2, s3 := Set(s, w, InCall(Probe(1, 1, k))), Set(s, w, InCall(Probe(1, 0, 0))), Set(s, w, InCall(Probe(1, 0, 1)));
    LooksFurther(s1, w, 1, 1, k);
    assert s2 == Goto(s1, w, Probe(1, 0, 0));
    MovesOn(s2, w, 1);
    assert s3 == Goto(s2, w, Probe(1, 0, 1));
    LooksFurther(s3, w, 1, 0, 1);
    assert Goto(s3, w, CountUp(1)) == Two(n, TOMB, large, count, inactive, threads[w := InCall(CountUp(1))]);
  }

  /** ... and draws a number. */
  lemma DrawsLittle(n: nat, large: seq<Slot>, count: int, inactive: seq<bool>, threads: seq<Thread>, w: nat)
    requires |large| == 2 * n && Within(Two(n, TOMB, large, count, inactive, threads))
    requires w < |threads| && threads[w] == InCall(CountUp(1)) && 0 <= count && count + 1 < n
    ensures Within(Two(n, TOMB, large, count + 1, inactive, threads[w := InCall(Recycle(1))]))
  {
    hide Within, Small, Step;
    var s := Two(n, TOMB, large, count, inactive, threads);
    Joins(s, w, 1);
    assert Goto(s.(count := s.count + 1), w, Recycle(1)) == Two(n, TOMB, large, count + 1, inactive, threads[w := InCall(Recycle(1))]);
  }

  /** It takes over a tombstone in the second table, for which it gives the number back ... */
  lemma SuccessorBinds(n: nat, m: nat, count: int, inactive: seq<bool>, threads: seq<Thread>, w: nat)
    requires m < 2 * n && Within(Two(n, TOMB, Large(2 * n, m)[m := TOMB], count, inactive, threads)) && |inactive| == w
    requires w == m + 1 && w < |threads| && threads[w] == InCall(Recycle(1))
    ensures Within(Two(n, TOMB, Large(2 * n, m + 1), count - 1, inactive + [false], threads[w := Bound(w)]))
  {
    hide Within, Small, Large, OthersUpTo, IdsUpTo, At, Index;
    var large := Large(2 * n, m)[m := TOMB];
    var s := Two(n, TOMB, large, count, inactive, threads);
    LargeSlots(2 * n, m, TOMB);
    Recycles(s, w, 1, m, w);
    var s1 := Goto(s.(inactive := inactive + [false]), w, TryTomb(1, m, w));
    assert Activated(inactive, w) == inactive + [false];
    TakesTombstone(s1, w, 1, m, w);
    assert large[m := Slot(Id(w), w)] == Large(2 * n, m)[m := Slot(Id(w), w)] == Large(2 * n, m + 1);
    assert Set(s1.(tables := s1.tables[1 := s1.tables[1][m := Slot(Id(w), w)]], count := s1.count - 1), w, Bound(w))
      == Two(n, TOMB, Large(2 * n, m + 1), count - 1, inactive + [false], threads[w := Bound(w)]);
  }

  /** ... or an empty slot, and keeps it. */
  lemma NewcomerBinds(n: nat, m: nat, first: Slot, count: int, resizing: bool, inactive: seq<bool>, threads: seq<Thread>, w: nat)
    requires m < 2 * n && Within(Two(n, first, Large(2 * n, m), count, inactive, threads).(resizing := resizing)) && |inactive| == w
    requires w == m + 1 && w < |threads| && threads[w] == InCall(Recycle(1))
    ensures Within(Two(n, first, Large(2 * n, m + 1), count, inactive + [false], threads[w := Bound(w)]).(resizing := resizing))
  {
    hide Within, Small, Large, OthersUpTo, IdsUpTo, At, Index;
    var s := Two(n, first, Large(2 * n, m), count, inactive, threads).(resizing := resizing);
    LargeSlots(2 * n, m, TOMB);
    Recycles(s, w, 1, m, w);
    var s1 := Goto(s.(inactive := inactive + [false]), w, TryTomb(1, m, w));
    assert Activated(inactive, w) == inactive + [false];
    TakesEmptySlot(s1, w, 1, m, w);
    assert Set(s1.(tables := s1.tables[1 := s1.tables[1][m := Slot(Id(w), w)]]), w, Bound(w))
      == Two(n, first, Large(2 * n, m + 1), count, inactive + [false], threads[w := Bound(w)]).(resizing := resizing);
  }

  // ----- the run, from the growth on -----

  /** Threads 1 to m are bound in the second table.  The sleepers are those up to n / 2 + 3; the ones up to
      n / 2 drew numbers at once, and so the table grew. */
  function Crew(n: nat, m: nat): seq<Thread> {
    seq(2 * n + 2, (i: nat) => if 1 <= i <= m then Bound(i)
                               else if 3 <= i <= n / 2 then InCall(Recycle(0))
                               else if 3 <= i <= n / 2 + 3 then InCall(CountUp(0))
                               else FRESH)
  }

  function Count(n: nat, m: nat): int {
    if m < n / 2 then n / 2 - m + 2 else if m <= n / 2 + 3 then 2 else m - n / 2 - 1
  }

  function Producers(m: nat): seq<bool> { [true] + seq(m, _ => false) }

  function Stage(n: nat, m: nat): State { Two(n, TOMB, Large(2 * n, m), Count(n, m), Producers(m), Crew(n, m)) }

  /** The next sleeper wakes up and is at the point where it needs a producer. */
  lemma Wakes(n: nat, m: nat)
    requires Within(Stage(n, m)) && n >= 8 && 2 <= m < n / 2 + 3
    ensures Within(Two(n, TOMB, Large(2 * n, m), Count(n, m + 1) + 1, Producers(m), Crew(n, m)[m + 1 := InCall(Recycle(0))]))
  {
    hide Within, Large, Small;
    var s, w := Stage(n, m), m + 1;
    if w > n / 2 {
      assert Crew(n, m)[w] == InCall(CountUp(0));
      Joins(s, w, 0);
      assert Goto(s.(count := s.count + 1), w, Recycle(0))
        == Two(n, TOMB, Large(2 * n, m), 3, Producers(m), Crew(n, m)[w := InCall(Recycle(0))]);
    } else {
      assert Crew(n, m)[w := InCall(Recycle(0))] == Crew(n, m);
    }
  }

  /** Once it is bound in the first table it is copied, exits, and its id is bound in the second. */
  lemma GoesOver(n: nat, m: nat)
    requires n >= 8 && 1 <= m < n / 2 + 3
    requires Within(Two(n, Slot(Id(m + 1), 0), Large(2 * n, m), Count(n, m + 1), Producers(m)[0 := false], Crew(n, m)[m + 1 := Bound(0)]))
    ensures Within(Stage(n, m + 1))
  {
    hide Within, Large, Small, Count, OthersUpTo;
    var w, lo, hi := m + 1, if m == 1 then 3 else m + 2, n / 2 + 4;
    var bound := Crew(n, m)[w := Bound(0)];
    assert CallersIn(bound, lo, hi);
    CallersCount(bound, lo, hi);
    SleeperIsFound(n, m, Count(n, w), Producers(m)[0 := false], bound, w);
    SleeperIsCopied(n, m, Count(n, w), Producers(m)[0 := false], bound[w := Thread(CopyTo(1, 0, 0), Some(0), None)], w);
    assert bound[w := Thread(CopyTo(1, 0, 0), Some(0), None)][w := Bound(0)] == bound;
    SleeperLeaves(n, m, Count(n, w), Producers(m)[0 := false], bound, w);
    var leaving, large := bound[w := Thread(Erase(0, 0), Some(0), Some(0))], Large(2 * n, m)[m := TOMB];
    SleeperExits(n, large, Count(n, w), Producers(m)[0 := false], leaving, w);
    assert Producers(m)[0 := false][0 := true] == Producers(m);
    var dead := leaving[w := GONE];
    assert dead == Crew(n, m)[w := GONE];
    Follows(n, m);
  }

  lemma Follows(n: nat, m: nat)
    requires n >= 8 && 1 <= m < n / 2 + 3
    requires Within(Two(n, TOMB, Large(2 * n, m)[m := TOMB], Count(n, m + 1), Producers(m), Crew(n, m)[m + 1 := GONE]))
    ensures Within(Stage(n, m + 1))
  {
    hide Within, Large, Small, OthersUpTo;
    var w, lo, hi := m + 1, if m == 1 then 3 else m + 2, n / 2 + 4;
    var large, dead, again := Large(2 * n, m)[m := TOMB], Crew(n, m)[w := GONE], Crew(n, m)[w := FRESH];
    var s := Two(n, TOMB, large, Count(n, w), Producers(m), dead);
    IsReborn(s, w);
    assert dead[w := FRESH] == again;
    assert Set(s, w, FRESH) == Two(n, TOMB, large, Count(n, w), Producers(m), again);
    assert CallersIn(again, lo, hi);
    CallersCount(again, lo, hi);
    LargeSlots(2 * n, m, TOMB);
    FindsNothing(n, large, m + 1, Count(n, w), Producers(m), again, w);
    DrawsLittle(n, large, Count(n, w), Producers(m), again[w := InCall(CountUp(1))], w);
    var joined := again[w := InCall(CountUp(1))][w := InCall(Recycle(1))];
    SuccessorBinds(n, m, Count(n, w) + 1, Producers(m), joined, w);
    assert Producers(m) + [false] == Producers(w) && joined[w := Bound(w)] == Crew(n, w);
  }

  lemma SleeperRound(n: nat, m: nat)
    requires Within(Stage(n, m)) && n >= 8 && 2 <= m < n / 2 + 3
    ensures Within(Stage(n, m + 1))
  {
    hide Within, Large, Small;
    var w := m + 1;
    Wakes(n, m);
    var threads := Crew(n, m)[w := InCall(Recycle(0))];
    SleeperBinds(n, Large(2 * n, m), Count(n, w) + 1, Producers(m), threads, w);
    assert threads[w := Bound(0)] == Crew(n, m)[w := Bound(0)];
    GoesOver(n, m);
  }

  /** When all sleepers have gone over, newcomers fill the table as long as it is not half full by count. */
  lemma NewcomerRound(n: nat, m: nat)
    requires Within(Stage(n, m)) && n >= 8 && n % 2 == 0 && n / 2 + 3 <= m < 3 * (n / 2)
    ensures Within(Stage(n, m + 1))
  {
    hide Within, Large, Small, OthersUpTo;
    var w := m + 1;
    assert CallersIn(Crew(n, m), 0, 0);
    CallersCount(Crew(n, m), 0, 0);
    LargeSlots(2 * n, m, TOMB);
    FindsNothing(n, Large(2 * n, m), m, Count(n, m), Producers(m), Crew(n, m), w);
    DrawsLittle(n, Large(2 * n, m), Count(n, m), Producers(m), Crew(n, m)[w := InCall(CountUp(1))], w);
    var joined := Crew(n, m)[w := InCall(CountUp(1))][w := InCall(Recycle(1))];
    var s := Two(n, TOMB, Large(2 * n, m), Count(n, m) + 1, Producers(m), joined);
    assert s.(resizing := false) == s;
    NewcomerBinds(n, m, TOMB, Count(n, m) + 1, false, Producers(m), joined, w);
    assert Producers(m) + [false] == Producers(w) && joined[w := Bound(w)] == Crew(n, w);
    assert Stage(n, w).(resizing := false) == Stage(n, w);
  }

  lemma {:induction false} Rounds(n: nat, m: nat)
    requires n >= 8 && n % 2 == 0 && 2 <= m <= 3 * (n / 2)
    ensures Within(Stage(n, m))
  {
    hide Within, Stage;
    if m == 2 {
      FirstStage(n);
    } else {
      Rounds(n, m - 1);
      if m - 1 < n / 2 + 3 { SleeperRound(n, m - 1); } else { NewcomerRound(n, m - 1); }
    }
  }

  // ----- up to the growth -----

  /** Thread 2 is bound in the first table.  Of the sleepers, those up to j have searched, and of these those
      up to k have drawn their numbers. */
  function Waiting(n: nat, j: nat, k: nat): seq<Thread> {
    seq(2 * n + 2, (i: nat) => if i == 2 then Bound(0)
                               else if 3 <= i <= k then InCall(Recycle(0))
                               else if 3 <= i <= j then InCall(CountUp(0))
                               else FRESH)
  }

  lemma WaitingAt(n: nat, j: nat, k: nat)
    requires 2 <= k <= j <= n / 2 + 3 && n >= 8
    ensures CallersIn(Waiting(n, j, k), 3, j + 1)
  {
    forall i | 0 <= i < 2 * n + 2 && !(3 <= i <= j) ensures Inside(Waiting(n, j, k)[i]) == 0 {
      assert Waiting(n, j, k)[i] == if i == 2 then Bound(0) else FRESH;
    }
  }

  /** A thread that is not in the first table searches it, up to slot k, which is free. */
  lemma FindsNothingYet(n: nat, first: Slot, k: nat, count: int, inactive: seq<bool>, threads: seq<Thread>, w: nat)
    requires n > 1 && Within(One(n, first, count, inactive, threads)) && Sum(threads, InsideFn()) < n / 2 + 2
    requires w < |threads| && threads[w] == FRESH && first.key != Id(w) && k == if first == FREE then 0 else 1
    requires first == FREE || first.key != Empty
    ensures Within(One(n, first, count, inactive, threads[w := InCall(CountUp(0))]))
  {
    hide Within, Small, OthersUpTo;
    var s := One(n, first, count, inactive, threads);
    FirstSlot(n, first, TOMB);
    assert OthersUpTo(s.tables[0], w, 0, k) by { if k == 0 { NothingToPass(s.tables[0], w); } }
    Searches(s, w, k);
    var s1 := Set(s, w, InCall(Probe(0, 0, k)));
    LooksFurther(s1, w, 0, 0, k);
    assert Goto(s1, w, CountUp(0)) == One(n, first, count, inactive, threads[w := InCall(CountUp(0))]);
  }

  lemma NothingToPass(table: seq<Slot>, w: nat)
    ensures OthersUpTo(table, w, 0, 0)
  {
  }

  lemma FirstBinds(n: nat, threads: seq<Thread>, w: nat)
    requires n >= 8 && Within(One(n, FREE, 0, [], threads)) && w < |threads| && threads[w] == InCall(CountUp(0))
    ensures Within(One(n, Slot(Id(w), 0), 1, [false], threads[w := Bound(0)]))
  {
    hide Within, Small, OthersUpTo;
    FirstSlot(n, FREE, Slot(Id(w), 0));
    var s := One(n, FREE, 0, [], threads);
    Joins(s, w, 0);
    var s1 := One(n, FREE, 1, [], threads[w := InCall(Recycle(0))]);
    assert s1 == Goto(s.(count := s.count + 1), w, Recycle(0));
    Recycles(s1, w, 0, 0, 0);
    var s2 := One(n, FREE, 1, [false], threads[w := InCall(TryTomb(0, 0, 0))]);
    assert s2 == Goto(s1.(inactive := Activated([], 0)), w, TryTomb(0, 0, 0));
    TakesEmptySlot(s2, w, 0, 0, 0);
    assert Set(s2.(tables := s2.tables[0 := s2.tables[0][0 := Slot(Id(w), 0)]]), w, Bound(0))
      == One(n, Slot(Id(w), 0), 1, [false], threads[w := Bound(0)]);
  }

  lemma {:induction false} AllSearch(n: nat, j: nat)
    requires n >= 8 && 2 <= j <= n / 2 + 3 && Within(One(n, Slot(Id(2), 0), 1, [false], Waiting(n, 2, 2)))
    ensures Within(One(n, Slot(Id(2), 0), 1, [false], Waiting(n, j, 2)))
  {
    hide Within, Small;
    if j > 2 {
      AllSearch(n, j - 1);
      assert CallersIn(Waiting(n, j - 1, 2), 3, j) by { WaitingAt(n, j - 1, 2); }
      CallersCount(Waiting(n, j - 1, 2), 3, j);
      FindsNothingYet(n, Slot(Id(2), 0), 1, 1, [false], Waiting(n, j - 1, 2), j);
      assert Waiting(n, j - 1, 2)[j := InCall(CountUp(0))] == Waiting(n, j, 2);
    }
  }

  lemma {:induction false} SomeDraw(n: nat, k: nat)
    requires n >= 8 && 2 <= k <= n / 2 && Within(One(n, Slot(Id(2), 0), 1, [false], Waiting(n, n / 2 + 3, 2)))
    ensures Within(One(n, Slot(Id(2), 0), k - 1, [false], Waiting(n, n / 2 + 3, k)))
  {
    hide Within, Small;
    if k > 2 {
      SomeDraw(n, k - 1);
      var s := One(n, Slot(Id(2), 0), k - 2, [false], Waiting(n, n / 2 + 3, k - 1));
      assert Waiting(n, n / 2 + 3, k - 1)[k] == InCall(CountUp(0));
      Joins(s, k, 0);
      assert Waiting(n, n / 2 + 3, k - 1)[k := InCall(Recycle(0))] == Waiting(n, n / 2 + 3, k);
      assert Goto(s.(count := s.count + 1), k, Recycle(0)) == One(n, Slot(Id(2), 0), k - 1, [false], Waiting(n, n / 2 + 3, k));
    }
  }

  /** Thread 1 draws the number with which the table has to grow ... */
  lemma GrowthIsDue(n: nat, first: Slot, threads: seq<Thread>)
    requires n >= 8 && Within(One(n, first, n / 2 - 1, [false], threads)) && |threads| > 1 && threads[1] == InCall(CountUp(0))
    ensures Within(One(n, first, n / 2, [false], threads[1 := InCall(Grow(n / 2))]).(resizing := true))
  {
    hide Within, Small;
    var s, c := One(n, first, n / 2 - 1, [false], threads), n / 2;
    var s1 := Goto(s.(count := c), 1, Check(0, c));
    Does(s, 1, 0, s1);
    var s2 := One(n, first, c, [false], threads[1 := InCall(Grow(c))]).(resizing := true);
    assert s2 == Goto(s1.(resizing := true), 1, Grow(c));
    Does(s1, 1, 0, s2);
  }

  /** ... publishes one of twice the size ... */
  lemma TableGrows(n: nat, first: Slot, threads: seq<Thread>)
    requires n >= 8 && Within(One(n, first, n / 2, [false], threads).(resizing := true)) && |threads| > 1 && threads[1] == InCall(Grow(n / 2))
    ensures Within(Two(n, first, Large(2 * n, 0), n / 2, [false], threads[1 := InCall(Unlock(1, n / 2))]).(resizing := true))
  {
    hide Within, Small;
    var s, c := One(n, first, n / 2, [false], threads).(resizing := true), n / 2;
    assert NewCapacity(c, 2 * n) == 2 * n && seq(2 * n, _ => Slot(Empty, 0)) == Large(2 * n, 0);
    var s1 := Two(n, first, Large(2 * n, 0), c, [false], threads[1 := InCall(Unlock(1, c))]).(resizing := true);
    assert s1 == Goto(s.(tables := s.tables + [Large(2 * n, 0)]), 1, Unlock(1, c));
    Does(s, 1, 0, s1);
  }

  /** ... and is bound in it. */
  lemma GrowerBinds(n: nat, first: Slot, threads: seq<Thread>)
    requires n >= 8 && |threads| > 1 && threads[1] == InCall(Unlock(1, n / 2))
    requires Within(Two(n, first, Large(2 * n, 0), n / 2, [false], threads).(resizing := true))
    ensures Within(Two(n, first, Large(2 * n, 1), n / 2, [false, false], threads[1 := Bound(1)]))
  {
    hide Within, Small, Large;
    var s, c := Two(n, first, Large(2 * n, 0), n / 2, [false], threads), n / 2;
    var s1, s2 := Goto(s, 1, Room(1, c)), Goto(s, 1, Recycle(1));
    Does(s.(resizing := true), 1, 0, s1);
    assert s2 == Goto(s1, 1, Recycle(1));
    Does(s1, 1, 0, s2);
    var joined := threads[1 := InCall(Recycle(1))];
    assert s2 == Two(n, first, Large(2 * n, 0), c, [false], joined).(resizing := false);
    NewcomerBinds(n, 0, first, c, false, [false], joined, 1);
    assert [false] + [false] == [false, false] && joined[1 := Bound(1)] == threads[1 := Bound(1)];
    assert Two(n, first, Large(2 * n, 1), c, [false, false], threads[1 := Bound(1)]).(resizing := false)
      == Two(n, first, Large(2 * n, 1), c, [false, false], threads[1 := Bound(1)]);
  }

  lemma SleepersSleep(n: nat)
    requires n >= 8
    ensures Within(One(n, Slot(Id(2), 0), n / 2 - 1, [false], Waiting(n, n / 2 + 3, n / 2)))
  {
    hide Within;
    var idle := seq(2 * n + 2, _ => FRESH);
    assert Small(n, FREE) == seq(n, _ => Slot(Empty, 0));
    StartsThere(One(n, FREE, 0, [], idle));
    hide Small;
    CallersCount(idle, 0, 0);
    FindsNothingYet(n, FREE, 0, 0, [], idle, 2);
    FirstBinds(n, idle[2 := InCall(CountUp(0))], 2);
    assert idle[2 := InCall(CountUp(0))][2 := Bound(0)] == Waiting(n, 2, 2);
    AllSearch(n, n / 2 + 3);
    SomeDraw(n, n / 2);
  }

  lemma FirstStage(n: nat)
    requires n >= 8
    ensures Within(Stage(n, 2))
  {
    hide Within, Large, Small;
    var first, threads := Slot(Id(2), 0), Waiting(n, n / 2 + 3, n / 2);
    SleepersSleep(n);
    WaitingAt(n, n / 2 + 3, n / 2);
    CallersCount(threads, 3, n / 2 + 4);
    FindsNothingYet(n, first, 1, n / 2 - 1, [false], threads, 1);
    GrowthIsDue(n, first, threads[1 := InCall(CountUp(0))]);
    TableGrows(n, first, threads[1 := InCall(CountUp(0))][1 := InCall(Grow(n / 2))]);
    var grown := threads[1 := InCall(CountUp(0))][1 := InCall(Grow(n / 2))][1 := InCall(Unlock(1, n / 2))];
    GrowerBinds(n, first, grown);
    assert grown[1 := Bound(1)] == Crew(n, 1)[2 := Bound(0)];
    assert [false, false] == Producers(1)[0 := false];
    GoesOver(n, 1);
  }

  // ----- no empty slot -----

  /** The threads after 3n / 2 up to k have drawn numbers too large for the second table, which nobody has
      replaced yet. */
  function Queue(n: nat, k: nat): seq<Thread> {
    seq(2 * n + 2, (i: nat) => if 1 <= i <= 3 * (n / 2) then Bound(i)
                               else if 3 * (n / 2) < i <= k then InCall(Check(1, i - n / 2 - 1))
                               else FRESH)
  }

  function Queued(n: nat, k: nat): State {
    Two(n, TOMB, Large(2 * n, 3 * (n / 2)), k - n / 2 - 1, Producers(3 * (n / 2)), Queue(n, k))
  }

  lemma {:induction false} AllQueue(n: nat, k: nat)
    requires n >= 8 && n % 2 == 0 && 3 * (n / 2) <= k <= 2 * n + 1
    ensures Within(Queued(n, k))
  {
    hide Within, Large, Small, OthersUpTo;
    var m := 3 * (n / 2);
    if k == m {
      Rounds(n, m);
      assert Crew(n, m) == Queue(n, m);
    } else {
      AllQueue(n, k - 1);
      assert CallersIn(Queue(n, k - 1), m + 1, k);
      CallersCount(Queue(n, k - 1), m + 1, k);
      NobodyBeyond(n, m, k);
      FindsNothing(n, Large(2 * n, m), m, k - n / 2 - 2, Producers(m), Queue(n, k - 1), k);
      var s := Two(n, TOMB, Large(2 * n, m), k - n / 2 - 2, Producers(m), Queue(n, k - 1)[k := InCall(CountUp(1))]);
      assert Queue(n, k - 1)[k := InCall(Check(1, k - n / 2 - 1))] == Queue(n, k);
      assert Queued(n, k) == Goto(s.(count := s.count + 1), k, Check(1, k - n / 2 - 1));
      Does(s, k, 0, Queued(n, k));
    }
  }

  lemma NobodyBeyond(n: nat, m: nat, k: nat)
    requires m < k && m < 2 * n
    ensures OthersUpTo(Large(2 * n, m), k, 0, m) && Large(2 * n, m)[m] == FREE
  {
  }

  /** The last of them is about to replace the table.  Those up to m have been bound. */
  function Rest(n: nat, m: nat): seq<Thread>
    requires m >= n
  {
    seq(2 * n + 2, (i: nat) => if 1 <= i <= m then Bound(i)
                               else if m < i <= 2 * n then InCall(Check(1, i - n / 2 - 1))
                               else if i == 2 * n + 1 then InCall(Grow(3 * (n / 2)))
                               else FRESH)
  }

  function Locked(n: nat, m: nat): State
    requires m >= n
  {
    Two(n, TOMB, Large(2 * n, m), 3 * (n / 2), Producers(m), Rest(n, m)).(resizing := true)
  }

  lemma LastLocks(n: nat)
    requires n >= 8 && n % 2 == 0
    ensures Within(Locked(n, 3 * (n / 2)))
  {
    hide Within, Large, Small;
    var m, w := 3 * (n / 2), 2 * n + 1;
    AllQueue(n, w);
    assert Queue(n, w)[w] == InCall(Check(1, m));
    assert Queue(n, w)[w := InCall(Grow(m))] == Rest(n, m);
    assert Locked(n, m) == Goto(Queued(n, w).(resizing := true), w, Grow(m));
    Does(Queued(n, w), w, 0, Locked(n, m));
  }

  lemma {:induction false} AllBind(n: nat, m: nat)
    requires n >= 8 && n % 2 == 0 && 3 * (n / 2) <= m <= 2 * n
    ensures Within(Locked(n, m))
  {
    hide Within, Large, Small;
    if m == 3 * (n / 2) {
      LastLocks(n);
    } else {
      AllBind(n, m - 1);
      OneBinds(n, m);
    }
  }

  function Admitted(n: nat, m: nat): State
    requires n < m <= 2 * n
  {
    Two(n, TOMB, Large(2 * n, m - 1), 3 * (n / 2), Producers(m - 1), Rest(n, m - 1)[m := InCall(Recycle(1))]).(resizing := true)
  }

  lemma OnePasses(n: nat, m: nat)
    requires n >= 8 && n % 2 == 0 && 3 * (n / 2) < m <= 2 * n && Within(Locked(n, m - 1))
    ensures Within(Admitted(n, m))
  {
    hide Within, Large, Small, Producers;
    assert Rest(n, m - 1)[m] == InCall(Check(1, m - n / 2 - 1));
    assert 2 * n / 4 == n / 2;
    Passes(Locked(n, m - 1), m, 1, m - n / 2 - 1);
    assert Goto(Locked(n, m - 1), m, Recycle(1)) == Admitted(n, m);
  }

  lemma OneBinds(n: nat, m: nat)
    requires n >= 8 && n % 2 == 0 && 3 * (n / 2) < m <= 2 * n && Within(Locked(n, m - 1))
    ensures Within(Locked(n, m))
  {
    hide Within, Large, Small;
    OnePasses(n, m);
    var joined := Rest(n, m - 1)[m := InCall(Recycle(1))];
    NewcomerBinds(n, m - 1, TOMB, 3 * (n / 2), true, Producers(m - 1), joined, m);
    assert Producers(m - 1) + [false] == Producers(m) && joined[m := Bound(m)] == Rest(n, m);
  }

  /** The main table is full: what the comment in the search rules out. */
  lemma MainTableCanFillUp(n: nat) returns (r: ThreadHashRoom.Hist)
    requires n >= 8 && n % 2 == 0
    ensures ReachableBy(r, n / 2 + 2) && |r.s.tables| == 2 && |r.s.tables[0]| == n && |r.s.tables[1]| == 2 * n
    ensures forall i :: 0 <= i < 2 * n ==> r.s.tables[1][i].key.Id? && r.s.tables[1][i].key != Id(0)
    ensures |r.s.threads| > 0 && r.s.threads[0] == FRESH
  {
    hide ReachableBy;
    AllBind(n, 2 * n);
    r :| ReachableBy(r, Limit(Locked(n, 2 * n))) && r.s == Locked(n, 2 * n);
  }

  /** Thread 0 has made d probes of it. */
  function Circling(n: nat, d: nat): State { Set(Locked(n, 2 * n), 0, InCall(Probe(1, 1, d))) }

  lemma {:induction false} Circles(n: nat, d: nat)
    requires n >= 8 && n % 2 == 0
    ensures Within(Circling(n, d))
  {
    hide Within, Small;
    var s := Locked(n, 2 * n);
    if d == 0 {
      AllBind(n, 2 * n);
      assert CallersIn(s.threads, 2 * n + 1, 2 * n + 2);
      CallersCount(s.threads, 2 * n + 1, 2 * n + 2);
      Searches(s, 0, 0);
      assert Set(s, 0, Thread(Probe(1, 1, 0), s.threads[0].bound, None)) == Circling(n, 0);
    } else {
      Circles(n, d - 1);
      CirclesOn(n, d);
    }
  }

  lemma CirclesOn(n: nat, d: nat)
    requires n >= 8 && d > 0 && Within(Circling(n, d - 1))
    ensures Within(Circling(n, d))
  {
    hide Within, Small, Large, At;
    NobodyHome(n, d - 1);
    assert Circling(n, d) == Goto(Circling(n, d - 1), 0, Probe(1, 1, d));
    Does(Circling(n, d - 1), 0, 0, Circling(n, d));
  }

  lemma NobodyHome(n: nat, d: nat)
    requires n > 0
    ensures At(Large(2 * n, 2 * n), 0, d).Id? && At(Large(2 * n, 2 * n), 0, d) != Id(0)
  {
  }

  /** A thread that is not in the full table searches it without end: for every number of probes there is a
      run in which it has made that many. */
  lemma SearchCanGoRound(n: nat, d: nat) returns (r: ThreadHashRoom.Hist)
    requires n >= 8 && n % 2 == 0
    ensures ReachableBy(r, n / 2 + 2) && |r.s.tables| == 2 && |r.s.tables[0]| == n && |r.s.tables[1]| == 2 * n
    ensures |r.s.threads| > 0 && r.s.threads[0].pc == Probe(1, 1, d)
  {
    hide ReachableBy;
    Circles(n, d);
    r :| ReachableBy(r, Limit(Circling(n, d))) && r.s == Circling(n, d);
  }

  /** In all runs with at most c callers at a time whose first table has n slots, every probe loop ends before
      it has gone round its table. */
  ghost predicate EveryLoopEnds(n: nat, c: nat) {
    forall r: ThreadHashRoom.Hist :: ReachableBy(r, c) && r.s.tables != [] && |r.s.tables[0]| == n ==>
      forall t :: 0 <= t < |r.s.threads| ==> EndsInTime(r.s, r.s.threads[t].pc)
  }

  predicate EndsInTime(s: State, pc: PC) {
    ThreadHashRoom.Probing(pc) ==>
      ThreadHashRoom.ProbedTable(pc) < |s.tables| && pc.d < |s.tables[ThreadHashRoom.ProbedTable(pc)]|
  }

  /** The loops end, whatever the number of threads, exactly with no more callers at a time than half the
      first table's slots and one. */
  lemma LoopsEndExactly(n: nat, c: nat)
    requires n >= 8 && n % 2 == 0
    ensures EveryLoopEnds(n, c) <==> 2 * c <= n + 2
  {
    hide ReachableBy;
    if 2 * c <= n + 2 {
      forall r: ThreadHashRoom.Hist, t: nat
        | ReachableBy(r, c) && r.s.tables != [] && |r.s.tables[0]| == n && t < |r.s.threads|
        ensures EndsInTime(r.s, r.s.threads[t].pc)
      {
        if ThreadHashRoom.Probing(r.s.threads[t].pc) { ProbeLoopsEnd(r, c, t); }
      }
    } else {
      var r := SearchCanGoRound(n, 2 * n);
      MoreCallers(r, n / 2 + 2, c);
      assert !EndsInTime(r.s, r.s.threads[0].pc);
    }
  }

  /** The one count says little of what is in use: when the last sleeper has gone over it is two. */
  lemma CountAloneDoesNotCover(n: nat) returns (r: ThreadHashRoom.Hist)
    requires n >= 8 && n % 2 == 0
    ensures ReachableBy(r, n / 2 + 2) && |r.s.tables| == 2 && r.s.count == 2
    ensures ThreadHashRoom.UsedSlots(r.s.tables[1]) == n / 2 + 3
  {
    hide ReachableBy;
    var m := n / 2 + 3;
    Rounds(n, m);
    r :| ReachableBy(r, Limit(Stage(n, m))) && r.s == Stage(n, m);
    UsedInLarge(2 * n, m);
  }

  lemma {:induction false} UsedInLarge(n: nat, m: nat)
    requires m <= n
    ensures ThreadHashRoom.UsedSlots(Large(n, m)) == m
  {
    if m == 0 {
      SumZero(Large(n, 0), ThreadHashRoom.UsedFn());
    } else {
      UsedInLarge(n, m - 1);
      var x := Slot(Id(m), m);
      SumUpdate(Large(n, m - 1), ThreadHashRoom.UsedFn(), m - 1, x);
      assert Large(n, m - 1)[m - 1 := x] == Large(n, m);
    }
  }
}
