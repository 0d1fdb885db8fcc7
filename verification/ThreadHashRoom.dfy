/** The thread-id table never fills up: how the count of producers reserves room in every table.

    A slot is claimed for good when an id goes into an empty one; tombstones are used again.  An id that
    stands only in older tables may be copied into a newer one at any time.  The count covers both,
    except for ids that go into a tombstone of a table that has been superseded since: those are
    counted here as the table's drift. */
module ThreadHashRoom {
  import opened Counting
  import opened Modular
  import opened Options
  import opened ThreadHashes
  import opened ThreadHashMap

  /** History: for each thread the time and the number it drew from the count; for each table the ids put
      into empty slots of it or older ones, the latest time and number among them, and the drift. */
  datatype Book = Book(claimed: nat, lastTime: int, lastNumber: nat, drift: nat)

  datatype Log = Log(clock: nat, time: seq<nat>, number: seq<nat>, books: seq<Book>)

  datatype Hist = Hist(s: State, log: Log)

  /** The thread's number is part of the count. */
  function Counted(pc: PC): bool {
    pc.Check? || pc.Grow? || pc.Unlock? || pc.Room? || pc.Recycle? || pc.TryTomb? || pc.TryEmpty? || pc.Uncount? || pc.GiveUp?
  }

  /** The table in which thread t binds itself with this step: a slot that was empty, or a tombstone. */
  function ClaimsEmpty(s: State, t: nat): bool
    requires t < |s.threads| == |s.hash|
  {
    s.threads[t].pc.TryEmpty? && At(TableAt(s, s.threads[t].pc.main), s.hash[t], s.threads[t].pc.d).Empty?
  }

  function ReusesTomb(s: State, t: nat): bool
    requires t < |s.threads| == |s.hash|
  {
    s.threads[t].pc.TryTomb? && At(TableAt(s, s.threads[t].pc.main), s.hash[t], s.threads[t].pc.d).Tomb?
  }

  function Claim(b: Book, time: nat, number: nat): Book {
    if time > b.lastTime then b.(claimed := b.claimed + 1, lastTime := time, lastNumber := number)
    else b.(claimed := b.claimed + 1)
  }

  /** What the step of thread t adds to the history. */
  function Note(r: Hist, t: nat, s': State): Log
    requires t < |r.s.threads| == |r.s.hash| == |r.log.time| == |r.log.number|
  {
    var s, l, pc := r.s, r.log, r.s.threads[t].pc;
    if pc.CountUp? then l.(clock := l.clock + 1, time := l.time[t := l.clock], number := l.number[t := NatOf(s.count + 1)])
    else if ClaimsEmpty(s, t) then
      l.(books := seq(|l.books|, h requires 0 <= h < |l.books| => if h >= pc.main then Claim(l.books[h], l.time[t], l.number[t]) else l.books[h]))
    else if ReusesTomb(s, t) then
      l.(books := seq(|l.books|, h requires 0 <= h < |l.books| => if h > pc.main then l.books[h].(drift := l.books[h].drift + 1) else l.books[h]))
    else if |s'.tables| > |s.tables| && l.books != [] then l.(books := l.books + [l.books[|l.books| - 1]])
    else l
  }

  predicate Enabled(r: Hist, a: Action) { ThreadHashes.Enabled(r.s, a) && |r.log.time| == |r.log.number| == |r.s.threads| }

  function Next(r: Hist, a: Action): Hist
    requires Enabled(r, a)
  {
    var s' := ThreadHashes.Next(r.s, a);
    Hist(s', if a.Run? then Note(r, a.t, s') else r.log)
  }

  ghost predicate Init(r: Hist) {
    && ThreadHashes.Init(r.s)
    && r.log.clock == 0 && |r.log.time| == |r.log.number| == |r.s.threads| && r.log.books == [Book(0, -1, 0, 0)]
  }

  // ----- the numbers -----

  /** A counted thread that drew its number no later than `until`. */
  datatype Entry = Entry(pc: PC, time: nat)

  ghost function Before(until: int): Entry -> int { (x: Entry) => if Counted(x.pc) && x.time <= until then 1 else 0 }

  function Pairs(threads: seq<Thread>, time: seq<nat>): seq<Entry>
    requires |threads| == |time|
  {
    seq(|threads|, t requires 0 <= t < |threads| => Entry(threads[t].pc, time[t]))
  }

  ghost function CountedUntil(threads: seq<Thread>, time: seq<nat>, until: int): int
    requires |threads| == |time|
  {
    Sum(Pairs(threads, time), Before(until))
  }

  /** Every number drawn after the latest of a table's claims covers the claims and all who drew before. */
  ghost predicate BookOk(b: Book, s: State, l: Log)
    requires |s.threads| == |l.time| == |l.number|
  {
    && (b.lastTime == -1 ==> b.claimed == 0) && -1 <= b.lastTime < l.clock
    && (b.lastTime >= 0 ==> b.claimed + CountedUntil(s.threads, l.time, b.lastTime) <= b.lastNumber)
    && (forall t :: 0 <= t < |s.threads| && Counted(s.threads[t].pc) && l.time[t] > b.lastTime ==>
          b.claimed + CountedUntil(s.threads, l.time, l.time[t]) <= l.number[t])
  }

  ghost predicate NumbersOk(s: State, l: Log) {
    && |s.threads| == |l.time| == |l.number| && |l.books| == |s.tables| > 0
    && (forall t :: 0 <= t < |s.threads| && Counted(s.threads[t].pc) ==> l.time[t] < l.clock)
    && (forall h :: 0 <= h < |l.books| ==> BookOk(l.books[h], s, l))
    && s.count == l.books[|l.books| - 1].claimed + CountedUntil(s.threads, l.time, l.clock)
    && (forall h :: 0 <= h < |l.books| ==> l.books[h].claimed <= l.books[|l.books| - 1].claimed)
  }

  lemma PairsUpdate(threads: seq<Thread>, time: seq<nat>, t: nat, th: Thread, x: nat, until: int)
    requires t < |threads| == |time|
    ensures CountedUntil(threads[t := th], time[t := x], until)
            == CountedUntil(threads, time, until) - Before(until)(Entry(threads[t].pc, time[t])) + Before(until)(Entry(th.pc, x))
  {
    assert Pairs(threads[t := th], time[t := x]) == Pairs(threads, time)[t := Entry(th.pc, x)];
    SumUpdate(Pairs(threads, time), Before(until), t, Entry(th.pc, x));
  }

  lemma UntilGrows(threads: seq<Thread>, time: seq<nat>, a: int, b: int)
    requires |threads| == |time| && a <= b
    ensures 0 <= CountedUntil(threads, time, a) <= CountedUntil(threads, time, b)
  {
    SumNonNegative(Pairs(threads, time), Before(a));
    UntilMonotone(Pairs(threads, time), a, b);
  }

  lemma {:induction false} UntilMonotone(p: seq<Entry>, a: int, b: int)
    requires a <= b
    ensures Sum(p, Before(a)) <= Sum(p, Before(b))
  {
    if p != [] { UntilMonotone(p[1..], a, b); }
  }

  /** Beyond the clock nobody is left out. */
  lemma {:induction false} UntilClock(p: seq<Entry>, a: int, b: int)
    requires a <= b && forall k :: 0 <= k < |p| && Counted(p[k].pc) ==> p[k].time <= a
    ensures Sum(p, Before(a)) == Sum(p, Before(b))
  {
    if p != [] {
      assert Counted(p[0].pc) ==> p[0].time <= a;
      forall k | 0 <= k < |p[1..]| && Counted(p[1..][k].pc) ensures p[1..][k].time <= a { assert p[1..][k] == p[k + 1]; }
      UntilClock(p[1..], a, b);
    }
  }

  /** A thread draws the next number. */
  lemma DrawKeeps(s: State, s': State, l: Log, l': Log, t: nat)
    requires NumbersOk(s, l) && t < |s.threads| == |s'.threads| && !Counted(s.threads[t].pc) && Counted(s'.threads[t].pc)
    requires s'.threads == s.threads[t := s'.threads[t]] && s'.tables == s.tables && s'.count == s.count + 1
    requires l' == l.(clock := l.clock + 1, time := l.time[t := l.clock], number := l.number[t := NatOf(s.count + 1)])
    ensures NumbersOk(s', l')
  {
    hide CountedUntil, Counted;
    UntilGrows(s.threads, l.time, l.clock, l.clock);
    PairsUpdate(s.threads, l.time, t, s'.threads[t], l.clock, l.clock);
    PairsUpdate(s.threads, l.time, t, s'.threads[t], l.clock, l'.clock);
    NobodyLater(s, l, l.clock, l'.clock);
    NobodyLater(s, l, l.clock - 1, l.clock);
    forall h | 0 <= h < |l.books| ensures BookOk(l'.books[h], s', l') {
      DrawBook(s, s', l, l', t, l.books[h], l.books[|l.books| - 1].claimed);
    }
  }

  lemma NobodyLater(s: State, l: Log, a: int, b: int)
    requires NumbersOk(s, l) && l.clock - 1 <= a <= b
    ensures CountedUntil(s.threads, l.time, a) == CountedUntil(s.threads, l.time, b)
  {
    UntilClock(Pairs(s.threads, l.time), a, b);
  }

  lemma DrawBook(s: State, s': State, l: Log, l': Log, t: nat, b: Book, all: nat)
    requires |s.threads| == |l.time| == |l.number| && BookOk(b, s, l) && b.claimed <= all
    requires t < |s.threads| == |s'.threads| && !Counted(s.threads[t].pc) && Counted(s'.threads[t].pc)
    requires s'.threads == s.threads[t := s'.threads[t]]
    requires l' == l.(clock := l.clock + 1, time := l.time[t := l.clock], number := l.number[t := NatOf(s.count + 1)])
    requires s.count == all + CountedUntil(s.threads, l.time, l.clock) && CountedUntil(s.threads, l.time, l.clock) >= 0
    requires forall u :: 0 <= u < |s.threads| && Counted(s.threads[u].pc) ==> l.time[u] < l.clock
    ensures BookOk(b, s', l')
  {
    hide CountedUntil;
    PairsUpdate(s.threads, l.time, t, s'.threads[t], l.clock, b.lastTime);
    PairsUpdate(s.threads, l.time, t, s'.threads[t], l.clock, l.clock);
    forall u | 0 <= u < |s'.threads| && Counted(s'.threads[u].pc) && l'.time[u] > b.lastTime
      ensures b.claimed + CountedUntil(s'.threads, l'.time, l'.time[u]) <= l'.number[u]
    {
      if u != t { PairsUpdate(s.threads, l.time, t, s'.threads[t], l.clock, l.time[u]); }
    }
  }

  /** A thread's number leaves the count: it claimed an empty slot in table m, or has given the number up. */
  lemma ClaimKeeps(s: State, s': State, l: Log, l': Log, t: nat, m: nat)
    requires NumbersOk(s, l) && t < |s.threads| == |s'.threads| && Counted(s.threads[t].pc) && !Counted(s'.threads[t].pc)
    requires s'.threads == s.threads[t := s'.threads[t]] && |s'.tables| == |s.tables| && s'.count == s.count && m < |l.books|
    requires |l'.books| == |l.books| && l' == l.(books := l'.books)
    requires forall h :: 0 <= h < |l.books| ==> l'.books[h] == if h >= m then Claim(l.books[h], l.time[t], l.number[t]) else l.books[h]
    ensures NumbersOk(s', l')
  {
    hide CountedUntil, Counted, BookOk;
    PairsUpdate(s.threads, l.time, t, s'.threads[t], l.time[t], l.clock);
    assert l.time[t := l.time[t]] == l.time;
    forall h | 0 <= h < |l.books| ensures BookOk(l'.books[h], s', l') {
      ClaimBook(s, s', l, l', t, l.books[h], h >= m);
    }
  }

  lemma ClaimBook(s: State, s': State, l: Log, l': Log, t: nat, b: Book, claims: bool)
    requires NumbersOk(s, l) && BookOk(b, s, l) && t < |s.threads| == |s'.threads|
    requires Counted(s.threads[t].pc) && !Counted(s'.threads[t].pc) && s'.threads == s.threads[t := s'.threads[t]]
    requires l'.clock == l.clock && l'.time == l.time && l'.number == l.number
    ensures BookOk(if claims then Claim(b, l.time[t], l.number[t]) else b, s', l')
  {
    hide CountedUntil;
    var b' := if claims then Claim(b, l.time[t], l.number[t]) else b;
    assert l.time[t := l.time[t]] == l.time;
    PairsUpdate(s.threads, l.time, t, s'.threads[t], l.time[t], b.lastTime);
    PairsUpdate(s.threads, l.time, t, s'.threads[t], l.time[t], l.time[t]);
    forall u | 0 <= u < |s'.threads| && Counted(s'.threads[u].pc) && l.time[u] > b'.lastTime
      ensures b'.claimed + CountedUntil(s'.threads, l.time, l.time[u]) <= l.number[u]
    {
      PairsUpdate(s.threads, l.time, t, s'.threads[t], l.time[t], l.time[u]);
    }
  }

  lemma GiveUpKeeps(s: State, s': State, l: Log, t: nat)
    requires NumbersOk(s, l) && t < |s.threads| == |s'.threads| && Counted(s.threads[t].pc) && !Counted(s'.threads[t].pc)
    requires s'.threads == s.threads[t := s'.threads[t]] && |s'.tables| == |s.tables| && s'.count == s.count - 1
    ensures NumbersOk(s', l)
  {
    hide CountedUntil, Counted, BookOk;
    PairsUpdate(s.threads, l.time, t, s'.threads[t], l.time[t], l.clock);
    assert l.time[t := l.time[t]] == l.time;
    forall h | 0 <= h < |l.books| ensures BookOk(l.books[h], s', l) { ClaimBook(s, s', l, l, t, l.books[h], false); }
  }

  /** The thread's number stays as it is; there may be a new table, with the books of the one before it. */
  lemma StayKeeps(s: State, s': State, l: Log, l': Log, t: nat)
    requires NumbersOk(s, l) && t < |s.threads| == |s'.threads| && Counted(s.threads[t].pc) == Counted(s'.threads[t].pc)
    requires s'.threads == s.threads[t := s'.threads[t]] && s'.count == s.count
    requires |l'.books| == |s'.tables| && l' == l.(books := l'.books)
    requires |l'.books| == |l.books| || |l'.books| == |l.books| + 1
    requires forall h :: 0 <= h < |l'.books| ==> l'.books[h].claimed == l.books[if h < |l.books| then h else |l.books| - 1].claimed
    requires forall h :: 0 <= h < |l'.books| ==> l'.books[h].lastTime == l.books[if h < |l.books| then h else |l.books| - 1].lastTime
    requires forall h :: 0 <= h < |l'.books| ==> l'.books[h].lastNumber == l.books[if h < |l.books| then h else |l.books| - 1].lastNumber
    ensures NumbersOk(s', l')
  {
    hide CountedUntil, Counted, BookOk;
    assert l.time[t := l.time[t]] == l.time;
    SameCounts(s, s', l, t);
    assert s'.count == s.count;
    forall h | 0 <= h < |l'.books| ensures BookOk(l'.books[h], s', l') {
      StayBook(s, s', l, l', t, l.books[if h < |l.books| then h else |l.books| - 1], l'.books[h]);
    }
  }

  lemma SameCounts(s: State, s': State, l: Log, t: nat)
    requires |s.threads| == |l.time| && t < |s.threads| == |s'.threads| && s'.threads == s.threads[t := s'.threads[t]]
    requires Counted(s.threads[t].pc) == Counted(s'.threads[t].pc)
    ensures forall x :: CountedUntil(s'.threads, l.time, x) == CountedUntil(s.threads, l.time, x)
  {
    hide CountedUntil, Counted;
    assert l.time[t := l.time[t]] == l.time;
    forall x ensures CountedUntil(s'.threads, l.time, x) == CountedUntil(s.threads, l.time, x) {
      PairsUpdate(s.threads, l.time, t, s'.threads[t], l.time[t], x);
    }
  }

  lemma StayBook(s: State, s': State, l: Log, l': Log, t: nat, b: Book, b': Book)
    requires |s.threads| == |l.time| == |l.number| && BookOk(b, s, l) && t < |s.threads| == |s'.threads|
    requires Counted(s.threads[t].pc) == Counted(s'.threads[t].pc) && s'.threads == s.threads[t := s'.threads[t]]
    requires l'.clock == l.clock && l'.time == l.time && l'.number == l.number
    requires b'.claimed == b.claimed && b'.lastTime == b.lastTime && b'.lastNumber == b.lastNumber
    requires forall x :: CountedUntil(s'.threads, l.time, x) == CountedUntil(s.threads, l.time, x)
    ensures BookOk(b', s', l')
  {
    hide CountedUntil;
  }

  // ----- what a thread's number says about its table -----

  function Number(pc: PC, number: nat): bool {
    (pc.Check? || pc.Grow? || pc.Unlock? || pc.Room? ==> pc.n == number)
  }

  /** A thread that goes on to claim a slot drew a number below three quarters of its table's size. */
  function Committed(s: State, pc: PC, number: nat): bool {
    pc.Recycle? || pc.TryTomb? || pc.TryEmpty? ==>
      pc.main < |s.tables| && number < |s.tables[pc.main]| / 2 + |s.tables[pc.main]| / 4
  }

  ghost predicate SizesOk(s: State, l: Log) {
    && |s.threads| == |l.number| && |l.books| == |s.tables|
    && (forall g, h :: 0 <= g <= h < |s.tables| ==> 0 < |s.tables[g]| <= |s.tables[h]|)
    && (forall t :: 0 <= t < |s.threads| ==> Number(s.threads[t].pc, l.number[t]) && Committed(s, s.threads[t].pc, l.number[t]))
    && (forall h :: 0 <= h < |l.books| && l.books[h].lastTime >= 0 ==>
          l.books[h].lastNumber < |s.tables[h]| / 2 + |s.tables[h]| / 4)
  }

  /** Fewer slots are claimed, for good or in reserve, than three quarters of the table. */
  lemma ClaimsAreFew(s: State, l: Log, h: nat)
    requires NumbersOk(s, l) && SizesOk(s, l) && h < |s.tables|
    ensures l.books[h].claimed < |s.tables[h]| / 2 + |s.tables[h]| / 4 || l.books[h].claimed == 0
  {
    hide CountedUntil, Counted;
    assert BookOk(l.books[h], s, l);
    UntilGrows(s.threads, l.time, l.books[h].lastTime, l.books[h].lastTime);
  }

  // ----- slots in use, and ids that may still come -----

  function Used(x: Slot): int { if x.key == Empty then 0 else 1 }
  ghost function UsedFn(): Slot -> int { x => Used(x) }
  ghost function UsedSlots(table: seq<Slot>): int { Sum(table, UsedFn()) }

  /** A thread that lives on with its id in older tables only. */
  ghost predicate IsOld(tables: seq<seq<Slot>>, threads: seq<Thread>, h: nat, u: nat)
    requires u < |threads| && h < |tables|
  {
    !Leaving(threads[u].pc) && NoId(tables[h], u) && exists f :: 0 <= f < h && !NoId(tables[f], u)
  }

  ghost function Olds(tables: seq<seq<Slot>>, threads: seq<Thread>, h: nat): set<nat>
    requires h < |tables|
  {
    set u | 0 <= u < |threads| && IsOld(tables, threads, h, u)
  }

  ghost predicate RoomAt(s: State, b: Book, h: nat)
    requires h < |s.tables|
  {
    UsedSlots(s.tables[h]) + |Olds(s.tables, s.threads, h)| <= b.claimed + b.drift
  }

  ghost predicate RoomOk(s: State, l: Log) {
    |l.books| == |s.tables| && forall h :: 0 <= h < |s.tables| ==> RoomAt(s, l.books[h], h)
  }

  lemma SubsetCount(a: set<nat>, b: set<nat>)
    requires a <= b
    ensures |a| <= |b|
    decreases b
  {
    if a != {} {
      var x :| x in a;
      SubsetCount(a - {x}, b - {x});
    }
  }

  lemma OneMore(a: set<nat>, b: set<nat>, x: nat)
    requires a <= b + {x}
    ensures |a| <= |b| + 1
  {
    SubsetCount(a, b + {x});
  }

  lemma OneLess(a: set<nat>, b: set<nat>, x: nat)
    requires x in b && a <= b - {x}
    ensures |a| <= |b| - 1
  {
    SubsetCount(a, b - {x});
  }

  /** No thread becomes old by a step that writes no id, unless it was. */
  lemma NobodyOlder(s: State, s': State, t: nat, h: nat)
    requires t < |s.threads| == |s'.threads| && s'.threads == s.threads[t := s'.threads[t]]
    requires h < |s.tables| && |s.tables| <= |s'.tables| && (forall k :: 0 <= k <= h ==> s'.tables[k] == s.tables[k])
    requires Leaving(s'.threads[t].pc) || !Leaving(s.threads[t].pc) || !IsOld(s'.tables, s'.threads, h, t)
    ensures Olds(s'.tables, s'.threads, h) <= Olds(s.tables, s.threads, h)
  {
    forall u | u in Olds(s'.tables, s'.threads, h) ensures u in Olds(s.tables, s.threads, h) {
      var f :| 0 <= f < h && !NoId(s'.tables[f], u);
      assert !NoId(s.tables[f], u);
    }
  }

  lemma SameRoom(s: State, s': State, b: Book, b': Book, t: nat, h: nat)
    requires h < |s.tables| && RoomAt(s, b, h) && b'.claimed + b'.drift >= b.claimed + b.drift
    requires t < |s.threads| == |s'.threads| && s'.threads == s.threads[t := s'.threads[t]]
    requires |s.tables| <= |s'.tables| && (forall k :: 0 <= k <= h ==> s'.tables[k] == s.tables[k])
    requires Leaving(s'.threads[t].pc) || !Leaving(s.threads[t].pc) || !IsOld(s'.tables, s'.threads, h, t)
    ensures RoomAt(s', b', h)
  {
    NobodyOlder(s, s', t, h);
    SubsetCount(Olds(s'.tables, s'.threads, h), Olds(s.tables, s.threads, h));
  }

  /** A write into table m, as the room of table h sees it. */
  lemma WrittenOlds(s: State, s': State, t: nat, m: nat, d: nat, x: Slot, h: nat, u: nat)
    requires Writes(s, t, m, d, x) && s'.tables == Put(s.tables, m, s.hash[t], d, x) && h < |s.tables|
    requires |s'.threads| == |s.threads| && s'.threads == s.threads[t := s'.threads[t]]
    requires u in Olds(s'.tables, s'.threads, h) && u != t
    ensures u in Olds(s.tables, s.threads, h)
  {
    WriteKeeps(s, t, m, d, x, u);
    forall k | 0 <= k < |s.tables| ensures NoId(s.tables[k], u) <==> NoId(s'.tables[k], u) {
      SameIds(s.tables[k], s'.tables[k], u);
    }
    var f :| 0 <= f < h && !NoId(s'.tables[f], u);
    assert !NoId(s.tables[f], u);
  }

  lemma WrittenUsed(s: State, t: nat, m: nat, d: nat, x: Slot)
    requires Writes(s, t, m, d, x) && x.key != Empty
    ensures UsedSlots(Put(s.tables, m, s.hash[t], d, x)[m])
            == UsedSlots(s.tables[m]) + if At(s.tables[m], s.hash[t], d) == Empty then 1 else 0
  {
    SumUpdate(s.tables[m], UsedFn(), Index(s.tables[m], s.hash[t], d), x);
  }

  /** An id goes into table m: the table has one more slot in use, at most, and one id fewer to expect;
      newer tables have one more to expect, unless they did already. */
  lemma WriteRoom(s: State, s': State, t: nat, m: nat, d: nat, x: Slot, b: Book, b': Book, h: nat, wasOld: bool)
    requires Writes(s, t, m, d, x) && x.key == Id(t) && s'.tables == Put(s.tables, m, s.hash[t], d, x) && h < |s.tables|
    requires |s'.threads| == |s.threads| && s'.threads == s.threads[t := s'.threads[t]]
    requires RoomAt(s, b, h)
    requires wasOld ==> h >= m ==> t in Olds(s.tables, s.threads, h)
    requires !wasOld ==> NoneAbove(s.tables, -1, t)
    requires h == m && !wasOld ==> b'.claimed + b'.drift >= b.claimed + b.drift + if At(s.tables[m], s.hash[t], d) == Empty then 1 else 0
    requires h > m && !wasOld ==> b'.claimed + b'.drift >= b.claimed + b.drift + 1
    requires h < m || wasOld ==> b'.claimed + b'.drift >= b.claimed + b.drift
    requires h < m ==> t in Olds(s'.tables, s'.threads, h) ==> t in Olds(s.tables, s.threads, h)
    ensures RoomAt(s', b', h)
  {
    hide IsOld, NoId, At;
    var olds, olds' := Olds(s.tables, s.threads, h), Olds(s'.tables, s'.threads, h);
    forall u | u in olds' && u != t ensures u in olds { WrittenOlds(s, s', t, m, d, x, h, u); }
    if h == m {
      WrittenUsed(s, t, m, d, x);
      assert t !in olds' by { WrittenIsThere(s, s', t, m, d, x); }
      if wasOld { OneLess(olds', olds, t); } else { SubsetCount(olds', olds); }
    } else {
      assert s'.tables[h] == s.tables[h] by { PutElsewhere(s, t, m, d, x, h); }
      if h > m && !wasOld { OneMore(olds', olds, t); } else { SubsetCount(olds', olds); }
    }
  }

  lemma PutElsewhere(s: State, t: nat, m: nat, d: nat, x: Slot, h: nat)
    requires t < |s.hash| && m < |s.tables| && h < |s.tables| && h != m
    ensures |Put(s.tables, m, s.hash[t], d, x)| == |s.tables| && Put(s.tables, m, s.hash[t], d, x)[h] == s.tables[h]
  {
  }

  lemma WrittenIsThere(s: State, s': State, t: nat, m: nat, d: nat, x: Slot)
    requires Writes(s, t, m, d, x) && x.key == Id(t) && s'.tables == Put(s.tables, m, s.hash[t], d, x)
    requires |s'.threads| == |s.threads|
    ensures t !in Olds(s'.tables, s'.threads, m)
  {
    assert s'.tables[m][Index(s.tables[m], s.hash[t], d)] == x;
    assert !NoId(s'.tables[m], t);
  }

  // ----- a new table -----

  ghost function Ids(table: seq<Slot>): set<nat> {
    if table == [] then {} else Ids(table[1..]) + if table[0].key.Id? then {table[0].key.t} else {}
  }

  lemma {:induction false} IdsCount(table: seq<Slot>)
    ensures |Ids(table)| <= UsedSlots(table)
  {
    if table != [] { IdsCount(table[1..]); }
  }

  lemma {:induction false} IdsHas(table: seq<Slot>, i: nat)
    requires i < |table| && table[i].key.Id?
    ensures table[i].key.t in Ids(table)
  {
    if i > 0 {
      assert table[1..][i - 1] == table[i];
      IdsHas(table[1..], i - 1);
    }
  }

  /** Every live id is in the last table or only in older ones, so the last table's claims cover them. */
  lemma NewTableRoom(s: State, s': State, b: Book, t: nat, c: nat)
    requires s.tables != [] && RoomAt(s, b, |s.tables| - 1) && t < |s.threads| == |s'.threads|
    requires s'.threads == s.threads[t := s'.threads[t]] && Leaving(s.threads[t].pc) == Leaving(s'.threads[t].pc)
    requires s'.tables == s.tables + [seq(c, _ => Slot(Empty, 0))]
    ensures RoomAt(s', b, |s.tables|)
  {
    var main := |s.tables| - 1;
    var olds, olds' := Olds(s.tables, s.threads, main), Olds(s'.tables, s'.threads, |s.tables|);
    forall u | u in olds' ensures u in Ids(s.tables[main]) + olds {
      var f :| 0 <= f < |s.tables| && !NoId(s'.tables[f], u);
      if NoId(s.tables[main], u) {
        assert f < main && !NoId(s.tables[f], u);
      } else {
        var i :| 0 <= i < |s.tables[main]| && s.tables[main][i].key == Id(u);
        IdsHas(s.tables[main], i);
      }
    }
    SubsetCount(olds', Ids(s.tables[main]) + olds);
    IdsCount(s.tables[main]);
    SumZero(s'.tables[|s.tables|], UsedFn());
  }

  // ----- every step -----

  ghost predicate Inv(r: Hist) {
    ThreadHashMap.Inv(r.s) && NumbersOk(r.s, r.log) && SizesOk(r.s, r.log) && RoomOk(r.s, r.log)
  }

  lemma InitHist(r: Hist)
    requires Init(r)
    ensures Inv(r)
  {
    ThreadHashMap.InitInv(r.s);
    SumZero(Pairs(r.s.threads, r.log.time), Before(r.log.clock));
    SumZero(r.s.tables[0], UsedFn());
    assert Olds(r.s.tables, r.s.threads, 0) == {};
  }

  /** Thread t goes on to pc; sizes stay, or a larger table is added. */
  lemma SizesKeep(s: State, s': State, l: Log, l': Log, t: nat)
    requires SizesOk(s, l) && t < |s.threads| == |s'.threads| && s'.threads == s.threads[t := s'.threads[t]]
    requires |l'.number| == |l.number| && l'.number == l.number[t := l'.number[t]] && |l'.books| == |s'.tables|
    requires |s.tables| <= |s'.tables| <= |s.tables| + 1 && s.tables != []
    requires forall h :: 0 <= h < |s.tables| ==> |s'.tables[h]| == |s.tables[h]|
    requires |s'.tables| > |s.tables| ==> |s'.tables[|s.tables|]| >= |s.tables[|s.tables| - 1]|
    requires Number(s'.threads[t].pc, l'.number[t]) && Committed(s', s'.threads[t].pc, l'.number[t])
    requires forall h :: 0 <= h < |l'.books| && l'.books[h].lastTime >= 0 ==>
               l'.books[h].lastNumber < |s'.tables[h]| / 2 + |s'.tables[h]| / 4
    ensures SizesOk(s', l')
  {
    forall u | 0 <= u < |s'.threads|
      ensures Number(s'.threads[u].pc, l'.number[u]) && Committed(s', s'.threads[u].pc, l'.number[u])
    {
      assert Committed(s, s.threads[u].pc, l.number[u]);
    }
  }

  /** A step that leaves the tables alone and keeps the thread's number, or its lack of one. */
  lemma QuietKeeps(s: State, s': State, l: Log, t: nat)
    requires NumbersOk(s, l) && SizesOk(s, l) && RoomOk(s, l)
    requires t < |s.threads| == |s'.threads| && s'.threads == s.threads[t := s'.threads[t]] && s'.tables == s.tables
    requires Counted(s.threads[t].pc) == Counted(s'.threads[t].pc) && s'.count == s.count
    requires Number(s'.threads[t].pc, l.number[t]) && Committed(s', s'.threads[t].pc, l.number[t])
    requires Leaving(s'.threads[t].pc) || !Leaving(s.threads[t].pc) || NoneAbove(s.tables, -1, t)
    ensures NumbersOk(s', l) && SizesOk(s', l) && RoomOk(s', l)
  {
    hide Counted, Committed, Number, BookOk, Leaving;
    assert l.number[t := l.number[t]] == l.number;
    StayKeeps(s, s', l, l, t);
    SizesKeep(s, s', l, l, t);
    forall h | 0 <= h < |s'.tables| ensures RoomAt(s', l.books[h], h) {
      assert RoomAt(s, l.books[h], h);
      SameRoom(s, s', l.books[h], l.books[h], t, h);
    }
  }

  lemma DrawRoom(s: State, s': State, l: Log, l': Log, t: nat)
    requires NumbersOk(s, l) && SizesOk(s, l) && RoomOk(s, l) && t < |s.threads| && s.threads[t].pc.CountUp?
    requires s' == Goto(s.(count := s.count + 1), t, Check(s.threads[t].pc.main, NatOf(s.count + 1)))
    requires l' == l.(clock := l.clock + 1, time := l.time[t := l.clock], number := l.number[t := NatOf(s.count + 1)])
    ensures NumbersOk(s', l') && SizesOk(s', l') && RoomOk(s', l')
  {
    hide BookOk;
    DrawKeeps(s, s', l, l', t);
    SizesKeep(s, s', l, l', t);
    forall h | 0 <= h < |s'.tables| ensures RoomAt(s', l'.books[h], h) {
      assert RoomAt(s, l.books[h], h);
      SameRoom(s, s', l.books[h], l.books[h], t, h);
    }
  }

  lemma GiveUpRoom(s: State, s': State, l: Log, t: nat)
    requires NumbersOk(s, l) && SizesOk(s, l) && RoomOk(s, l)
    requires t < |s.threads| && (s.threads[t].pc.Uncount? || s.threads[t].pc.GiveUp?)
    requires |s'.threads| == |s.threads| && s'.threads == s.threads[t := s'.threads[t]] && s'.tables == s.tables && s'.count == s.count - 1
    requires s'.threads[t].pc == Idle || s'.threads[t].pc == ClearLock
    ensures NumbersOk(s', l) && SizesOk(s', l) && RoomOk(s', l)
  {
    hide BookOk;
    assert l.number[t := l.number[t]] == l.number;
    GiveUpKeeps(s, s', l, t);
    SizesKeep(s, s', l, l, t);
    forall h | 0 <= h < |s'.tables| ensures RoomAt(s', l.books[h], h) {
      assert RoomAt(s, l.books[h], h);
      SameRoom(s, s', l.books[h], l.books[h], t, h);
    }
  }

  lemma GrowNumbers(s: State, s': State, l: Log, l': Log, t: nat, c: nat)
    requires NumbersOk(s, l) && SizesOk(s, l) && t < |s.threads| && s.threads[t].pc.Grow?
    requires c >= |s.tables[|s.tables| - 1]|
    requires s' == Goto(s.(tables := s.tables + [seq(c, _ => Slot(Empty, 0))]), t, Unlock(|s.tables|, s.threads[t].pc.n))
    requires l' == l.(books := l.books + [l.books[|l.books| - 1]])
    ensures NumbersOk(s', l') && SizesOk(s', l')
  {
    hide BookOk;
    assert l.number[t := l.number[t]] == l.number;
    StayKeeps(s, s', l, l', t);
    SizesKeep(s, s', l, l', t);
  }

  lemma GrowRoom(s: State, s': State, l: Log, l': Log, t: nat, c: nat)
    requires RoomOk(s, l) && s.tables != [] && t < |s.threads| && s.threads[t].pc.Grow?
    requires s' == Goto(s.(tables := s.tables + [seq(c, _ => Slot(Empty, 0))]), t, Unlock(|s.tables|, s.threads[t].pc.n))
    requires l' == l.(books := l.books + [l.books[|l.books| - 1]])
    ensures RoomOk(s', l')
  {
    hide RoomAt, Olds, IsOld;
    forall h | 0 <= h < |s'.tables| ensures RoomAt(s', l'.books[h], h) {
      if h < |s.tables| {
        assert RoomAt(s, l.books[h], h);
        SameRoom(s, s', l.books[h], l.books[h], t, h);
      } else {
        assert RoomAt(s, l.books[h - 1], h - 1);
        NewTableRoom(s, s', l.books[h - 1], t, c);
      }
    }
  }

  /** An id claims an empty slot of table m. */
  lemma ClaimNumbers(s: State, s': State, l: Log, l': Log, t: nat)
    requires NumbersOk(s, l) && SizesOk(s, l)
    requires t < |s.threads| == |s.hash| && ClaimsEmpty(s, t) && s.threads[t].pc.main < |s.tables| && s.tables[s.threads[t].pc.main] != []
    requires s' == Bind(s, t, s.threads[t].pc.main, s.threads[t].pc.d, s.threads[t].pc.p, Idle)
    requires l' == l.(books := seq(|l.books|, h requires 0 <= h < |l.books| => if h >= s.threads[t].pc.main then Claim(l.books[h], l.time[t], l.number[t]) else l.books[h]))
    ensures NumbersOk(s', l') && SizesOk(s', l')
  {
    hide BookOk, At;
    ClaimKeeps(s, s', l, l', t, s.threads[t].pc.main);
    assert Committed(s, s.threads[t].pc, l.number[t]);
    assert l.number[t := l.number[t]] == l.number;
    SizesKeep(s, s', l, l', t);
  }

  lemma ClaimRoom(s: State, s': State, l: Log, l': Log, t: nat)
    requires RoomOk(s, l)
    requires t < |s.threads| == |s.hash| && ClaimsEmpty(s, t) && s.threads[t].pc.main < |s.tables| && s.tables[s.threads[t].pc.main] != []
    requires s' == Bind(s, t, s.threads[t].pc.main, s.threads[t].pc.d, s.threads[t].pc.p, Idle)
    requires NoneAbove(s.tables, -1, t)
    requires |l'.books| == |l.books|
    requires forall h :: 0 <= h < |l.books| ==>
               l'.books[h].drift == l.books[h].drift
               && l'.books[h].claimed == l.books[h].claimed + if h >= s.threads[t].pc.main then 1 else 0
    ensures RoomOk(s', l')
  {
    hide At, NoneAbove, Olds;
    var m, d, x := s.threads[t].pc.main, s.threads[t].pc.d, Slot(Id(t), s.threads[t].pc.p);
    forall h | 0 <= h < |s'.tables| ensures RoomAt(s', l'.books[h], h) {
      assert RoomAt(s, l.books[h], h);
      NotOldBelow(s, s', t, m, d, x, h);
      WriteRoom(s, s', t, m, d, x, l.books[h], l'.books[h], h, false);
    }
  }

  /** A write into table m makes nobody old for the tables before it. */
  lemma NotOldBelow(s: State, s': State, t: nat, m: nat, d: nat, x: Slot, h: nat)
    requires Writes(s, t, m, d, x) && s'.tables == Put(s.tables, m, s.hash[t], d, x) && h < |s.tables|
    requires |s'.threads| == |s.threads| && s'.threads == s.threads[t := s'.threads[t]]
    requires Leaving(s'.threads[t].pc) || !Leaving(s.threads[t].pc)
    ensures h < m ==> t in Olds(s'.tables, s'.threads, h) ==> t in Olds(s.tables, s.threads, h)
  {
    if h < m && t in Olds(s'.tables, s'.threads, h) {
      forall k | 0 <= k <= h ensures s'.tables[k] == s.tables[k] { PutElsewhere(s, t, m, d, x, k); }
      var f :| 0 <= f < h && !NoId(s'.tables[f], t);
      assert !NoId(s.tables[f], t);
    }
  }

  /** An id takes over a tombstone of table m: newer tables drift. */
  lemma ReuseRoom(s: State, s': State, l: Log, l': Log, t: nat)
    requires ThreadHashMap.Inv(s) && NumbersOk(s, l) && SizesOk(s, l) && RoomOk(s, l)
    requires t < |s.threads| == |s.hash| && ReusesTomb(s, t) && s.threads[t].pc.main < |s.tables| && s.tables[s.threads[t].pc.main] != []
    requires s' == Bind(s, t, s.threads[t].pc.main, s.threads[t].pc.d, s.threads[t].pc.p, Uncount)
    requires NoneAbove(s.tables, -1, t)
    requires l' == l.(books := seq(|l.books|, h requires 0 <= h < |l.books| => if h > s.threads[t].pc.main then l.books[h].(drift := l.books[h].drift + 1) else l.books[h]))
    ensures NumbersOk(s', l') && SizesOk(s', l') && RoomOk(s', l')
  {
    hide BookOk, ThreadHashMap.Inv, At;
    var m, d, x := s.threads[t].pc.main, s.threads[t].pc.d, Slot(Id(t), s.threads[t].pc.p);
    assert l.number[t := l.number[t]] == l.number;
    StayKeeps(s, s', l, l', t);
    SizesKeep(s, s', l, l', t);
    forall h | 0 <= h < |s'.tables| ensures RoomAt(s', l'.books[h], h) {
      assert RoomAt(s, l.books[h], h);
      NotOldBelow(s, s', t, m, d, x, h);
      WriteRoom(s, s', t, m, d, x, l.books[h], l'.books[h], h, false);
    }
  }

  lemma CopyShape(s: State, s': State, t: nat)
    requires t < |s.threads| == |s.hash| && s.threads[t].pc.CopyTo? && s.threads[t].pc.main < |s.tables|
    requires s' == CopyStep(s, t, s.threads[t].pc.main, s.threads[t].pc.d, s.threads[t].pc.value)
    ensures |s'.threads| == |s.threads| && s'.threads == s.threads[t := s'.threads[t]] && s'.count == s.count
    ensures |s'.tables| == |s.tables| && forall h :: 0 <= h < |s.tables| ==> |s'.tables[h]| == |s.tables[h]|
    ensures Counted(s'.threads[t].pc) == Counted(s.threads[t].pc)
    ensures s'.threads[t].pc == Idle || (s'.threads[t].pc.CopyTo? && s'.threads[t].pc.main == s.threads[t].pc.main)
  {
    hide At;
  }

  /** An id is copied from an older table into table m, which had reserved the place. */
  lemma CopyNumbers(s: State, s': State, l: Log, t: nat)
    requires NumbersOk(s, l) && SizesOk(s, l)
    requires t < |s.threads| == |s.hash| && s.threads[t].pc.CopyTo? && s.threads[t].pc.main < |s.tables|
    requires s' == CopyStep(s, t, s.threads[t].pc.main, s.threads[t].pc.d, s.threads[t].pc.value)
    ensures NumbersOk(s', l) && SizesOk(s', l)
  {
    CopyShape(s, s', t);
    hide BookOk, CopyStep, CountedUntil;
    assert l.number[t := l.number[t]] == l.number;
    StayKeeps(s, s', l, l, t);
    SizesKeep(s, s', l, l, t);
  }

  lemma CopyRoom(s: State, s': State, l: Log, t: nat)
    requires RoomOk(s, l)
    requires t < |s.threads| == |s.hash| && s.threads[t].pc.CopyTo? && s.threads[t].pc.main < |s.tables|
    requires s.tables[s.threads[t].pc.main] != [] && !At(s.tables[s.threads[t].pc.main], s.hash[t], s.threads[t].pc.d).Id?
    requires s' == CopyStep(s, t, s.threads[t].pc.main, s.threads[t].pc.d, s.threads[t].pc.value)
    requires NoneAbove(s.tables, s.threads[t].pc.main - 1, t) && Somewhere(s.tables, t)
    ensures RoomOk(s', l)
  {
    hide At;
    var m, d, x := s.threads[t].pc.main, s.threads[t].pc.d, Slot(Id(t), s.threads[t].pc.value);
    OldAbove(s, t, m);
    hide Olds, NoneAbove, Somewhere;
    forall h | 0 <= h < |s'.tables| ensures RoomAt(s', l.books[h], h) {
      assert RoomAt(s, l.books[h], h);
      NotOldBelow(s, s', t, m, d, x, h);
      WriteRoom(s, s', t, m, d, x, l.books[h], l.books[h], h, true);
    }
  }

  lemma OldAbove(s: State, t: nat, m: nat)
    requires t < |s.threads| && !Leaving(s.threads[t].pc) && NoneAbove(s.tables, m - 1, t) && Somewhere(s.tables, t)
    ensures forall h :: m <= h < |s.tables| ==> t in Olds(s.tables, s.threads, h)
  {
    var f :| 0 <= f < |s.tables| && !NoId(s.tables[f], t);
    assert f < m;
    forall h | m <= h < |s.tables| ensures t in Olds(s.tables, s.threads, h) { assert NoId(s.tables[h], t); }
  }

  /** A tombstone takes as much room as the id before it. */
  lemma EraseRoom(s: State, s': State, l: Log, t: nat)
    requires NumbersOk(s, l) && SizesOk(s, l) && RoomOk(s, l)
    requires t < |s.threads| == |s.hash| && s.threads[t].pc.Erase? && s.threads[t].pc.h < |s.tables|
    requires s.tables[s.threads[t].pc.h] != [] && At(s.tables[s.threads[t].pc.h], s.hash[t], s.threads[t].pc.d) == Id(t)
    requires s' == EraseStep(s, t, s.threads[t].pc.h, s.threads[t].pc.d)
    ensures NumbersOk(s', l) && SizesOk(s', l) && RoomOk(s', l)
  {
    hide BookOk, At;
    var m, d := s.threads[t].pc.h, s.threads[t].pc.d;
    var x := Slot(Tomb, s.tables[m][Index(s.tables[m], s.hash[t], d)].value);
    assert l.number[t := l.number[t]] == l.number;
    StayKeeps(s, s', l, l, t);
    SizesKeep(s, s', l, l, t);
    forall h | 0 <= h < |s'.tables| ensures RoomAt(s', l.books[h], h) {
      assert RoomAt(s, l.books[h], h);
      TombRoom(s, s', t, m, d, x, l.books[h], h);
    }
  }

  lemma TombRoom(s: State, s': State, t: nat, m: nat, d: nat, x: Slot, b: Book, h: nat)
    requires Writes(s, t, m, d, x) && x.key == Tomb && s'.tables == Put(s.tables, m, s.hash[t], d, x) && h < |s.tables|
    requires |s'.threads| == |s.threads| && s'.threads == s.threads[t := s'.threads[t]] && Leaving(s'.threads[t].pc)
    requires RoomAt(s, b, h)
    ensures RoomAt(s', b, h)
  {
    var olds, olds' := Olds(s.tables, s.threads, h), Olds(s'.tables, s'.threads, h);
    forall u | u in olds' ensures u in olds {
      assert u != t;
      WrittenOlds(s, s', t, m, d, x, h, u);
    }
    SubsetCount(olds', olds);
    if h == m { WrittenUsed(s, t, m, d, x); } else { PutElsewhere(s, t, m, d, x, h); }
  }

  predicate Plain(pc: PC) { pc.LoadMain? || pc.Check? || pc.Unlock? || pc.Room? || pc.ClearLock? || pc.Probe? || pc.Retire? }

  lemma PlainShape(r: Hist, t: nat, ok: bool, p: nat)
    requires Enabled(r, ThreadHashes.Action.Run(t, ok, p)) && |r.log.books| == |r.s.tables|
    requires Plain(r.s.threads[t].pc) && PcOk(r.s.tables, r.s.hash[t], t, r.s.threads[t])
    ensures var s, s', l := r.s, Step(r.s, t, ok, p), r.log;
      && |s'.threads| == |s.threads| && s'.threads == s.threads[t := s'.threads[t]] && s'.tables == s.tables && s'.count == s.count
      && Note(r, t, s') == l
      && Counted(s.threads[t].pc) == Counted(s'.threads[t].pc)
      && (Leaving(s'.threads[t].pc) || !Leaving(s.threads[t].pc) || NoneAbove(s.tables, -1, t))
  {
    hide NoId, Found;
  }

  lemma PlainNumber(s: State, n: nat, t: nat, ok: bool, p: nat)
    requires ThreadHashes.Enabled(s, ThreadHashes.Action.Run(t, ok, p)) && Plain(s.threads[t].pc)
    requires Number(s.threads[t].pc, n) && Committed(s, s.threads[t].pc, n)
    ensures var s' := Step(s, t, ok, p);
      t < |s'.threads| && Number(s'.threads[t].pc, n) && Committed(s', s'.threads[t].pc, n)
  {
    hide At, CopyStep, GrowStep, RecycleStep, TombStep, EmptyStep, EraseStep;
  }

  lemma PlainStep(r: Hist, t: nat, ok: bool, p: nat)
    requires Inv(r) && Enabled(r, ThreadHashes.Action.Run(t, ok, p)) && Plain(r.s.threads[t].pc)
    ensures var s' := Step(r.s, t, ok, p);
      Note(r, t, s') == r.log && NumbersOk(s', r.log) && SizesOk(s', r.log) && RoomOk(s', r.log)
  {
    hide NumbersOk, SizesOk, RoomOk, TablesOk, OwnersOk, Step;
    PcFact(r.s, t);
    NumberFact(r.s, r.log, t);
    PlainShape(r, t, ok, p);
    PlainNumber(r.s, r.log.number[t], t, ok, p);
    QuietKeeps(r.s, Step(r.s, t, ok, p), r.log, t);
  }

  lemma NumberFact(s: State, l: Log, t: nat)
    requires SizesOk(s, l) && t < |s.threads|
    ensures t < |l.number| && Number(s.threads[t].pc, l.number[t]) && Committed(s, s.threads[t].pc, l.number[t])
    ensures |l.books| == |s.tables|
  {
  }

  lemma CountStep(r: Hist, t: nat, ok: bool, p: nat)
    requires Inv(r) && Enabled(r, ThreadHashes.Action.Run(t, ok, p))
    requires var pc := r.s.threads[t].pc; pc.CountUp? || pc.Uncount? || pc.GiveUp?
    ensures var s' := Step(r.s, t, ok, p); var l' := Note(r, t, s');
      NumbersOk(s', l') && SizesOk(s', l') && RoomOk(s', l')
  {
    hide NumbersOk, SizesOk, RoomOk, NoId, Found, TablesOk, OwnersOk, BookOk, PcOk;
    var s, s' := r.s, Step(r.s, t, ok, p);
    if s.threads[t].pc.CountUp? {
      DrawRoom(s, s', r.log, Note(r, t, s'), t);
    } else {
      GiveUpRoom(s, s', r.log, t);
    }
  }

  lemma GrowOrNot(r: Hist, t: nat, ok: bool, p: nat)
    requires Inv(r) && Enabled(r, ThreadHashes.Action.Run(t, ok, p)) && (r.s.threads[t].pc.Grow? || r.s.threads[t].pc.Recycle?)
    ensures var s' := Step(r.s, t, ok, p); var l' := Note(r, t, s');
      NumbersOk(s', l') && SizesOk(s', l') && RoomOk(s', l')
  {
    hide NumbersOk, SizesOk, RoomOk, NoId, Found, TablesOk, OwnersOk, BookOk, PcOk, NewCapacity;
    var s, s' := r.s, Step(r.s, t, ok, p);
    SomeTable(s);
    NotEmptyTable(s, Main(s));
    NumberFact(s, r.log, t);
    if |s'.tables| > |s.tables| {
      var c := NewCapacity(s.threads[t].pc.n, 2 * Capacity(s, Main(s)));
      GrowNumbers(s, s', r.log, Note(r, t, s'), t, c);
      GrowRoom(s, s', r.log, Note(r, t, s'), t, c);
    } else {
      QuietKeeps(s, s', r.log, t);
    }
  }

  lemma TryStep(r: Hist, t: nat, ok: bool, p: nat)
    requires Inv(r) && Enabled(r, ThreadHashes.Action.Run(t, ok, p)) && (r.s.threads[t].pc.TryTomb? || r.s.threads[t].pc.TryEmpty?)
    ensures var s' := Step(r.s, t, ok, p); var l' := Note(r, t, s');
      NumbersOk(s', l') && SizesOk(s', l') && RoomOk(s', l')
  {
    hide NumbersOk, SizesOk, RoomOk, NoId, Found, TablesOk, OwnersOk, BookOk, At, Bind;
    var s, s' := r.s, Step(r.s, t, ok, p);
    PcFact(s, t);
    NotEmptyTable(s, s.threads[t].pc.main);
    NumberFact(s, r.log, t);
    UnboundIsAbsent(s, t);
    TryCases(r, t, ok, p);
    if ClaimsEmpty(s, t) {
      ClaimNumbers(s, s', r.log, Note(r, t, s'), t);
      ClaimRoom(s, s', r.log, Note(r, t, s'), t);
    } else if ReusesTomb(s, t) {
      ReuseRoom(s, s', r.log, Note(r, t, s'), t);
    } else {
      QuietKeeps(s, s', r.log, t);
    }
  }

  lemma TryCases(r: Hist, t: nat, ok: bool, p: nat)
    requires Enabled(r, ThreadHashes.Action.Run(t, ok, p)) && (r.s.threads[t].pc.TryTomb? || r.s.threads[t].pc.TryEmpty?)
    ensures var s, s', l' := r.s, Step(r.s, t, ok, p), Note(r, t, Step(r.s, t, ok, p));
      var pc := s.threads[t].pc;
      && (ClaimsEmpty(s, t) ==> s' == Bind(s, t, pc.main, pc.d, pc.p, Idle))
      && (ReusesTomb(s, t) ==> s' == Bind(s, t, pc.main, pc.d, pc.p, Uncount))
      && (!ClaimsEmpty(s, t) && !ReusesTomb(s, t) ==>
            l' == r.log && s' == Goto(s, t, if pc.TryTomb? then TryEmpty(pc.main, pc.d, pc.p) else TryTomb(pc.main, pc.d + 1, pc.p)))
  {
    hide At, Bind;
  }

  lemma CopyOrErase(r: Hist, t: nat, ok: bool, p: nat)
    requires Inv(r) && Enabled(r, ThreadHashes.Action.Run(t, ok, p)) && (r.s.threads[t].pc.CopyTo? || r.s.threads[t].pc.Erase?)
    ensures var s' := Step(r.s, t, ok, p);
      Note(r, t, s') == r.log && NumbersOk(s', r.log) && SizesOk(s', r.log) && RoomOk(s', r.log)
  {
    hide NumbersOk, SizesOk, RoomOk, NoId, Found, TablesOk, OwnersOk, BookOk, At, Put, NoneAbove, Somewhere, Passed, InUse;
    var s, s' := r.s, Step(r.s, t, ok, p);
    PcFact(s, t);
    NumberFact(s, r.log, t);
    assert |s'.tables| == |s.tables| by { PutSize(s, t); }
    if s.threads[t].pc.CopyTo? {
      NotEmptyTable(s, s.threads[t].pc.main);
      if At(s.tables[s.threads[t].pc.main], s.hash[t], s.threads[t].pc.d).Id? {
        QuietKeeps(s, s', r.log, t);
      } else {
        CopyNumbers(s, s', r.log, t);
        CopyRoom(s, s', r.log, t);
      }
    } else {
      NotEmptyTable(s, s.threads[t].pc.h);
      if At(s.tables[s.threads[t].pc.h], s.hash[t], s.threads[t].pc.d) == Id(t) {
        EraseRoom(s, s', r.log, t);
      } else {
        QuietKeeps(s, s', r.log, t);
      }
    }
  }

  lemma PutSize(s: State, t: nat)
    ensures forall h: nat, hash: nat, d: nat, x: Slot :: |Put(s.tables, h, hash, d, x)| == |s.tables|
  {
  }

  lemma CallStep(r: Hist, a: Action)
    requires Inv(r) && Enabled(r, a) && !a.Run?
    ensures Inv(Next(r, a))
  {
    hide NumbersOk, SizesOk, RoomOk, NoId, Found, TablesOk, OwnersOk, BookOk;
    var s, s' := r.s, ThreadHashes.Next(r.s, a);
    ThreadHashMap.NextInv(s, a);
    PcFact(s, a.t);
    NumberFact(s, r.log, a.t);
    if a.Reborn? { UnboundIsAbsent(s, a.t); }
    QuietKeeps(s, s', r.log, a.t);
  }

  lemma NextHist(r: Hist, a: Action)
    requires Inv(r) && Enabled(r, a)
    ensures Inv(Next(r, a))
  {
    if !a.Run? {
      CallStep(r, a);
    } else {
      hide ThreadHashMap.Inv, NumbersOk, SizesOk, RoomOk, Note, Step;
      ThreadHashMap.NextInv(r.s, a);
      var t, ok, p := a.t, a.ok, a.p;
      match r.s.threads[t].pc {
        case CountUp(_) => CountStep(r, t, ok, p);
        case Uncount => CountStep(r, t, ok, p);
        case GiveUp(_) => CountStep(r, t, ok, p);
        case Grow(_) => GrowOrNot(r, t, ok, p);
        case Recycle(_) => GrowOrNot(r, t, ok, p);
        case TryTomb(_, _, _) => TryStep(r, t, ok, p);
        case TryEmpty(_, _, _) => TryStep(r, t, ok, p);
        case CopyTo(_, _, _) => CopyOrErase(r, t, ok, p);
        case Erase(_, _) => CopyOrErase(r, t, ok, p);
        case _ => PlainStep(r, t, ok, p);
      }
    }
  }

  // ----- what every run guarantees -----

  ghost predicate Moves(r: Hist, a: Action, r': Hist) { Enabled(r, a) && r' == Next(r, a) }

  ghost predicate Leads(r: Hist, r': Hist) { exists a :: Moves(r, a, r') }

  ghost predicate IsRun(run: seq<Hist>) {
    && run != [] && Init(run[0])
    && (forall i :: 0 <= i < |run| - 1 ==> Leads(run[i], run[i + 1]))
  }

  ghost predicate Reachable(r: Hist) { exists run :: IsRun(run) && run[|run| - 1] == r }

  lemma {:induction false} RunInv(run: seq<Hist>, i: nat)
    requires IsRun(run) && i < |run|
    ensures Inv(run[i])
  {
    hide Inv, Enabled, Next, Init;
    if i == 0 {
      InitHist(run[0]);
    } else {
      RunInv(run, i - 1);
      assert Leads(run[i - 1], run[i - 1 + 1]);
      var a :| Moves(run[i - 1], a, run[i]);
      NextHist(run[i - 1], a);
    }
  }

  lemma ReachableInv(r: Hist)
    requires Reachable(r)
    ensures Inv(r)
  {
    hide Inv, Enabled, Next, Init;
    var run :| IsRun(run) && run[|run| - 1] == r;
    RunInv(run, |run| - 1);
  }

  /** The slots in use of any table, with the live ids that stand only in older ones, are fewer than three
      quarters of it, but for the tombstones used again in tables that it had superseded. */
  lemma TableHasRoom(r: Hist, h: nat)
    requires Reachable(r) && h < |r.s.tables|
    ensures h < |r.log.books|
    ensures var size := |r.s.tables[h]|; var taken := UsedSlots(r.s.tables[h]) + |Olds(r.s.tables, r.s.threads, h)|;
      taken <= r.log.books[h].drift || taken < size / 2 + size / 4 + r.log.books[h].drift
  {
    hide Reachable, NumbersOk, SizesOk, ThreadHashMap.Inv, UsedSlots, Olds;
    ReachableInv(r);
    assert RoomAt(r.s, r.log.books[h], h);
    ClaimsAreFew(r.s, r.log, h);
  }

  /** And in the current table no more than the count says, again but for those. */
  lemma CountCoversTheTable(r: Hist)
    requires Reachable(r)
    ensures r.s.tables != [] && |r.log.books| == |r.s.tables|
    ensures var main := |r.s.tables| - 1;
      UsedSlots(r.s.tables[main]) + |Olds(r.s.tables, r.s.threads, main)| <= r.s.count + r.log.books[main].drift
  {
    hide Reachable, ThreadHashMap.Inv, SizesOk, UsedSlots, Olds, BookOk, CountedUntil;
    ReachableInv(r);
    UntilGrows(r.s.threads, r.log.time, r.log.clock, r.log.clock);
    var main := |r.s.tables| - 1;
    assert RoomAt(r.s, r.log.books[main], main);
  }

  lemma {:induction false} FullTable(table: seq<Slot>)
    requires forall i :: 0 <= i < |table| ==> table[i].key != Empty
    ensures UsedSlots(table) == |table|
  {
    SumConstant(table, UsedFn(), 1);
  }

  lemma TableHasSlots(r: Hist, h: nat)
    requires Inv(r) && h < |r.s.tables|
    ensures |r.s.tables[h]| > 0
  {
    hide ThreadHashMap.Inv, NumbersOk, RoomOk;
  }

  /** So every search and every insertion comes upon an empty slot, unless the drift is more than a quarter of
      the table: at each moment the table has one. */
  lemma EveryTableHasAnEmptySlot(r: Hist, h: nat)
    requires Reachable(r) && h < |r.s.tables| == |r.log.books|
    requires 4 * r.log.books[h].drift <= |r.s.tables[h]|
    ensures exists i :: 0 <= i < |r.s.tables[h]| && r.s.tables[h][i].key == Empty
  {
    hide Reachable, UsedSlots, Olds, Inv;
    TableHasRoom(r, h);
    ReachableInv(r);
    TableHasSlots(r, h);
    if forall i :: 0 <= i < |r.s.tables[h]| ==> r.s.tables[h][i].key != Empty { FullTable(r.s.tables[h]); }
  }

  /** The table that thread t is probing. */
  function ProbedTable(pc: PC): nat {
    match pc
    case Probe(_, h, _) => h
    case Erase(h, _) => h
    case CopyTo(main, _, _) => main
    case TryTomb(main, _, _) => main
    case TryEmpty(main, _, _) => main
    case _ => 0
  }

  predicate Probing(pc: PC) { pc.Probe? || pc.Erase? || pc.CopyTo? || pc.TryTomb? || pc.TryEmpty? }

  lemma AllProbed(table: seq<Slot>, hash: nat, d: nat, i: nat)
    requires table != [] && ThreadHashMap.InUse(table, hash, d) && d >= |table| && i < |table|
    ensures table[i].key != Empty
  {
    var n := |table|;
    var q, start := hash / n, hash % n;
    var k := if i < start then i + n - start else i - start;
    assert hash + k == (if i < start then q + 1 else q) * n + i;
    DivModUnique(hash + k, n, if i < start then q + 1 else q, i);
    assert At(table, hash, k) != Empty;
  }

  /** And so the loops that probe the tables end: no thread, searching, inserting or erasing, ever makes as
      many probes of a table as it has slots. */
  lemma ProbingEnds(r: Hist, t: nat)
    requires Reachable(r) && t < |r.s.threads| && Probing(r.s.threads[t].pc)
    requires var h := ProbedTable(r.s.threads[t].pc);
      h < |r.s.tables| == |r.log.books| && 4 * r.log.books[h].drift <= |r.s.tables[h]|
    ensures r.s.threads[t].pc.d < |r.s.tables[ProbedTable(r.s.threads[t].pc)]|
  {
    hide Reachable, NumbersOk, SizesOk, RoomOk, ThreadHashMap.Found, ThreadHashMap.TableOk;
    ReachableInv(r);
    var pc := r.s.threads[t].pc;
    var table := r.s.tables[ProbedTable(pc)];
    assert ThreadHashMap.PcOk(r.s.tables, r.s.hash[t], t, r.s.threads[t]);
    assert ThreadHashMap.InUse(table, r.s.hash[t], pc.d);
    EveryTableHasAnEmptySlot(r, ProbedTable(pc));
    var i :| 0 <= i < |table| && table[i].key == Empty;
    if pc.d >= |table| { AllProbed(table, r.s.hash[t], pc.d, i); }
  }
}
