/** The ticket protocol of `ExplicitProducer::dequeue` and `dequeue_bulk`: how any number of threads
    divide the elements of one sub-queue among themselves with three counters.

    The counters of the program are words; here they are the unbounded counts whose words the
    program sees, and every test is made on words, as the program makes it.  `dequeue` draws its
    ticket exactly as `dequeue_bulk` with a maximum of one does. */
module Tickets {
  import opened Counting
  import opened Words

  /** What became of a ticket drawn from dequeueOptimisticCount. */
  datatype Ticket = Drawn(t: nat) | Won | Lost

  datatype PC =
    | Idle
    | ReadTail(max: nat)                                // tail = tailIndex
    | ReadOvercommit(max: nat, tail: nat)               // overcommit = dequeueOvercommit
    | ReadOptimistic(max: nat, tail: nat, over: nat)    // dequeueOptimisticCount; anything there?
    | Draw(desired: nat, over: nat)                     // dequeueOptimisticCount.fetch_add(desired)
    | RereadTail(desired: nat, over: nat, mine: nat)    // tail = tailIndex; how many are really there?
    | GiveBack(n: nat, mine: nat, claim: nat)           // dequeueOvercommit.fetch_add(n)
    | Claim(n: nat)                                     // headIndex.fetch_add(n)
    | Claimed(first: nat, n: nat)                       // reading elements first .. first + n

  /** `tail` and `over` are tailIndex and dequeueOvercommit.  dequeueOptimisticCount is the number of
      `tickets`, headIndex the number of `claims`, which also record, as history, what became of each
      ticket and which thread claimed each index. */
  datatype State = State(tail: nat, over: nat, tickets: seq<Ticket>, claims: seq<nat>, pc: seq<PC>)

  function Optimistic(s: State): nat { |s.tickets| }
  function Head(s: State): nat { |s.claims| }

  datatype Action =
    | Publish                    // the producer stores tailIndex + 1
    | Start(t: nat, max: nat)
    | Run(t: nat)
    | Finish(t: nat)             // the claimed elements have been read

  /** How many elements the thread finds left for the ticket it drew: tail - (mine - overcommit). */
  function Left(s: State, p: PC): int
    requires p.RereadTail?
  {
    s.tail - (p.mine - p.over)
  }

  /** The thread was not asleep, between reading the overcommit and rereading the tail, while more
      than 2^63 tickets were drawn beyond what the tail allows for. */
  predicate NotLapped(s: State, p: PC) { p.RereadTail? ==> Left(s, p) >= -HALF }

  predicate Enabled(s: State, a: Action) {
    match a
    case Publish => true
    case Start(t, max) => t < |s.pc| && s.pc[t] == Idle
    case Run(t) => t < |s.pc| && s.pc[t] != Idle && !s.pc[t].Claimed?
    case Finish(t) => t < |s.pc| && s.pc[t].Claimed?
  }

  /** No decision by a thread that slept too long. */
  predicate Steady(s: State, a: Action) { a.Run? && a.t < |s.pc| ==> NotLapped(s, s.pc[a.t]) }

  function Next(s: State, a: Action): State
    requires Enabled(s, a)
  {
    match a
    case Publish => s.(tail := s.tail + 1)
    case Start(t, max) => s.(pc := s.pc[t := ReadTail(max)])
    case Run(t) => Step(s, t)
    case Finish(t) => s.(pc := s.pc[t := Idle])
  }

  function Step(s: State, t: nat): State
    requires Enabled(s, Run(t))
  {
    match s.pc[t]
    case ReadTail(max) => s.(pc := s.pc[t := ReadOvercommit(max, s.tail)])
    case ReadOvercommit(max, tail) => s.(pc := s.pc[t := ReadOptimistic(max, tail, s.over)])
    case ReadOptimistic(max, tail, over) => s.(pc := s.pc[t := Look(s, max, tail, over)])
    case Draw(desired, over) =>
      s.(tickets := s.tickets + seq(desired, _ => Drawn(t)),
         pc := s.pc[t := RereadTail(desired, over, Optimistic(s))])
    case RereadTail(desired, over, mine) =>
      Decide(s, t, desired, mine, SomeLeft(Left(s, s.pc[t])), Granted(Left(s, s.pc[t]), desired))
    case GiveBack(n, mine, claim) =>
      s.(over := s.over + n, tickets := Mark(s.tickets, mine, n, Lost),
         pc := s.pc[t := if claim > 0 then Claim(claim) else Idle])
    case Claim(n) =>
      s.(claims := s.claims + seq(n, _ => t), pc := s.pc[t := AfterClaim(Head(s), n)])
  }

  /** A call for no elements that gets this far reads none. */
  function AfterClaim(first: nat, n: nat): PC { if n > 0 then Claimed(first, n) else Idle }

  /** The test before drawing a ticket, and how many to draw. */
  function Look(s: State, max: nat, tail: nat, over: nat): PC {
    var desired := Wrap(tail - (Optimistic(s) - over));
    if CircularLess(0, desired) then Draw(if desired < max then desired else max, over) else Idle
  }

  /** The test after, and of `desired` tickets the number that find an element. */
  predicate SomeLeft(left: int) { CircularLess(0, Wrap(left)) }

  function Granted(left: int, desired: nat): nat {
    var actual := Wrap(left);
    if SomeLeft(left) then (if desired < actual then desired else actual) else 0
  }

  function Mark(tickets: seq<Ticket>, from: nat, n: nat, o: Ticket): (m: seq<Ticket>)
    ensures |m| == |tickets|
    ensures forall k :: 0 <= k < |m| ==> m[k] == if from <= k < from + n then o else tickets[k]
  {
    seq(|tickets|, k requires 0 <= k < |tickets| => if from <= k < from + n then o else tickets[k])
  }

  function Decide(s: State, t: nat, desired: nat, mine: nat, some: bool, actual: nat): State
    requires t < |s.pc| && actual <= desired
  {
    s.(tickets := Mark(s.tickets, mine, actual, Won), pc := s.pc[t := AfterDecision(desired, mine, some, actual)])
  }

  function AfterDecision(desired: nat, mine: nat, some: bool, actual: nat): PC
    requires actual <= desired
  {
    if actual < desired || !some then GiveBack(desired - actual, mine + actual, actual) else Claim(actual)
  }

  // ----- the invariant -----

  function LostTicket(o: Ticket): int { if o.Lost? then 1 else 0 }
  function WonTicket(o: Ticket): int { if o.Won? then 1 else 0 }
  function ToClaim(p: PC): int { if p.Claim? then p.n else if p.GiveBack? then p.claim else 0 }

  ghost function LostFn(): Ticket -> int { o => LostTicket(o) }
  ghost function WonFn(): Ticket -> int { o => WonTicket(o) }
  ghost function ToClaimFn(): PC -> int { p => ToClaim(p) }

  ghost function LostCount(tickets: seq<Ticket>): int { Sum(tickets, LostFn()) }
  ghost function WonCount(tickets: seq<Ticket>): int { Sum(tickets, WonFn()) }
  ghost function Unclaimed(pc: seq<PC>): int { Sum(pc, ToClaimFn()) }

  /** The tickets the thread still has in hand. */
  function InHand(p: PC): (int, int) {
    match p
    case RereadTail(desired, _, mine) => (mine, mine + desired)
    case GiveBack(n, mine, _) => (mine, mine + n)
    case _ => (0, 0)
  }

  /** A thread's reading of the overcommit is no newer than its ticket, so every ticket behind that
      reading was lost before this one was drawn. */
  ghost predicate PcOk(tickets: seq<Ticket>, over: nat, claims: seq<nat>, t: nat, p: PC) {
    && (p.ReadOptimistic? ==> p.over <= over)
    && (p.Draw? ==> p.over <= over && p.desired < HALF)
    && InHand(p).1 <= |tickets|
    && (p.RereadTail? ==> p.desired < HALF && p.over <= LostCount(tickets[..p.mine]))
    && (p.GiveBack? ==> p.claim < HALF)
    && (p.Claim? ==> p.n < HALF)
    && (forall k :: InHand(p).0 <= k < InHand(p).1 ==> tickets[k] == Drawn(t))
    && (p.Claimed? ==> 0 < p.n < HALF && p.first + p.n <= |claims|)
    && (p.Claimed? ==> forall k :: p.first <= k < p.first + p.n ==> claims[k] == t)
  }

  /** A winning ticket k found an element: the tickets up to k, less those lost below it, fit under
      the tail. */
  ghost predicate WinnersFit(tickets: seq<Ticket>, tail: nat) {
    forall k :: 0 <= k < |tickets| && tickets[k].Won? ==> k + 1 - LostCount(tickets[..k]) <= tail
  }

  ghost predicate Inv(s: State) {
    && s.over == LostCount(s.tickets)
    && WonCount(s.tickets) == Head(s) + Unclaimed(s.pc)
    && WinnersFit(s.tickets, s.tail)
    && (forall t :: 0 <= t < |s.pc| ==> PcOk(s.tickets, s.over, s.claims, t, s.pc[t]))
    && DrawnAreInHand(s.tickets, s.pc)
  }

  /** A ticket not yet won or lost is in the hand of the thread that drew it. */
  ghost predicate DrawnAreInHand(tickets: seq<Ticket>, pc: seq<PC>) {
    forall k :: 0 <= k < |tickets| && tickets[k].Drawn? ==>
      tickets[k].t < |pc| && InHand(pc[tickets[k].t]).0 <= k < InHand(pc[tickets[k].t]).1
  }

  ghost predicate Init(s: State) {
    && s.tail == s.over == 0 && s.tickets == [] && s.claims == []
    && forall t :: 0 <= t < |s.pc| ==> s.pc[t] == Idle
  }

  lemma InitInv(s: State)
    requires Init(s)
    ensures Inv(s)
  {
    SumZero(s.pc, ToClaimFn());
  }

  // ----- winners never outnumber elements -----

  lemma {:induction false} WonAndLost(tickets: seq<Ticket>)
    ensures 0 <= WonCount(tickets) && 0 <= LostCount(tickets)
    ensures WonCount(tickets) + LostCount(tickets) <= |tickets|
  {
    if tickets != [] { WonAndLost(tickets[1..]); }
  }

  /** The latest winner bounds all the others. */
  lemma {:induction false} WinnersUnderTail(tickets: seq<Ticket>, tail: nat)
    requires WinnersFit(tickets, tail)
    ensures WonCount(tickets) <= tail
  {
    if tickets != [] {
      var k := |tickets| - 1;
      assert tickets[..k + 1] == tickets;
      SumPrefix(tickets, WonFn(), k);
      if tickets[k].Won? {
        WonAndLost(tickets[..k]);
      } else {
        forall j | 0 <= j < k && tickets[..k][j].Won?
          ensures j + 1 - LostCount(tickets[..k][..j]) <= tail
        {
          assert tickets[..k][..j] == tickets[..j];
        }
        WinnersUnderTail(tickets[..k], tail);
      }
    }
  }

  lemma {:induction false} MarkCounts(tickets: seq<Ticket>, from: nat, n: nat, o: Ticket, f: Ticket -> int)
    requires from + n <= |tickets|
    requires forall k :: from <= k < from + n ==> f(tickets[k]) == 0
    ensures Sum(Mark(tickets, from, n, o), f) == Sum(tickets, f) + n * f(o)
  {
    if n == 0 {
      assert Mark(tickets, from, 0, o) == tickets;
    } else {
      var m := Mark(tickets, from, n - 1, o);
      assert Mark(tickets, from, n, o) == m[from + n - 1 := o];
      MarkCounts(tickets, from, n - 1, o, f);
      SumUpdate(m, f, from + n - 1, o);
      assert n * f(o) == (n - 1) * f(o) + f(o);
    }
  }

  /** Losses only accumulate: below any ticket, marking tickets in hand never lowers the count. */
  lemma MarkLostBelow(tickets: seq<Ticket>, from: nat, n: nat, o: Ticket, k: nat)
    requires from + n <= |tickets| && k <= |tickets| && !o.Drawn?
    requires forall j :: from <= j < from + n ==> tickets[j].Drawn?
    ensures LostCount(tickets[..k]) <= LostCount(Mark(tickets, from, n, o)[..k])
  {
    SumMonotone(tickets[..k], Mark(tickets, from, n, o)[..k], LostFn());
  }

  lemma LostGrows(tickets: seq<Ticket>, j: nat, k: nat)
    requires j <= k <= |tickets|
    ensures LostCount(tickets[..j]) <= LostCount(tickets[..k])
  {
    assert tickets[..k] == tickets[..j] + tickets[j..k];
    SumAppend(tickets[..j], tickets[j..k], LostFn());
    SumNonNegative(tickets[j..k], LostFn());
  }

  // ----- every step keeps the invariant -----

  /** What a step of another thread does to the tickets as thread t sees them. */
  ghost predicate Progress(tickets: seq<Ticket>, tickets': seq<Ticket>, t: nat) {
    && |tickets| <= |tickets'|
    && (forall k :: 0 <= k < |tickets| && tickets[k] == Drawn(t) ==> tickets'[k] == Drawn(t))
    && (forall k :: 0 <= k <= |tickets| ==> LostCount(tickets[..k]) <= LostCount(tickets'[..k]))
  }

  lemma OtherKeeps(s: State, s': State, t: nat)
    requires t < |s.pc| && PcOk(s.tickets, s.over, s.claims, t, s.pc[t])
    requires Progress(s.tickets, s'.tickets, t) && s.over <= s'.over && s.claims <= s'.claims
    ensures PcOk(s'.tickets, s'.over, s'.claims, t, s.pc[t])
  {
  }

  lemma DrawCounts(tickets: seq<Ticket>, n: nat, t: nat, tail: nat)
    requires WinnersFit(tickets, tail)
    ensures var m := tickets + seq(n, _ => Drawn(t));
      LostCount(m) == LostCount(tickets) && WonCount(m) == WonCount(tickets) && WinnersFit(m, tail)
      && forall k :: 0 <= k <= |tickets| ==> m[..k] == tickets[..k]
  {
    var drawn := seq(n, _ => Drawn(t));
    SumAppend(tickets, drawn, LostFn());
    SumAppend(tickets, drawn, WonFn());
    SumConstant(drawn, LostFn(), 0);
    SumConstant(drawn, WonFn(), 0);
    var m := tickets + drawn;
    forall k | 0 <= k <= |tickets| ensures m[..k] == tickets[..k] {}
  }

  lemma DrawIsProgress(tickets: seq<Ticket>, n: nat, t: nat, u: nat)
    ensures Progress(tickets, tickets + seq(n, _ => Drawn(t)), u)
  {
    hide LostCount;
    var m := tickets + seq(n, _ => Drawn(t));
    forall k | 0 <= k <= |tickets| ensures m[..k] == tickets[..k] {}
  }

  lemma DrawKeeps(s: State, t: nat)
    requires Inv(s) && Enabled(s, Run(t)) && s.pc[t].Draw?
    ensures Inv(Step(s, t))
  {
    hide WinnersFit, LostCount, WonCount, Progress;
    var s' := Step(s, t);
    DrawCounts(s.tickets, s.pc[t].desired, t, s.tail);
    SumUpdate(s.pc, ToClaimFn(), t, s'.pc[t]);
    assert s.tickets[..|s.tickets|] == s.tickets;
    assert PcOk(s.tickets, s.over, s.claims, t, s.pc[t]);
    forall u | 0 <= u < |s.pc| && u != t ensures PcOk(s'.tickets, s'.over, s'.claims, u, s'.pc[u]) {
      DrawIsProgress(s.tickets, s.pc[t].desired, t, u);
      OtherKeeps(s, s', u);
    }
  }

  /** Marking tickets in hand, as won or as lost, is progress for everybody else. */
  lemma MarkIsProgress(tickets: seq<Ticket>, from: nat, n: nat, o: Ticket, t: nat, u: nat)
    requires from + n <= |tickets| && !o.Drawn? && u != t
    requires forall k :: from <= k < from + n ==> tickets[k] == Drawn(t)
    ensures Progress(tickets, Mark(tickets, from, n, o), u)
  {
    forall k | 0 <= k <= |tickets| ensures LostCount(tickets[..k]) <= LostCount(Mark(tickets, from, n, o)[..k]) {
      MarkLostBelow(tickets, from, n, o, k);
    }
  }

  lemma MarkKeepsWinners(tickets: seq<Ticket>, tail: nat, from: nat, n: nat, o: Ticket)
    requires WinnersFit(tickets, tail) && from + n <= |tickets| && !o.Drawn?
    requires forall k :: from <= k < from + n ==> tickets[k].Drawn?
    requires o.Won? && n > 0 ==> from + n - LostCount(tickets[..from]) <= tail
    ensures WinnersFit(Mark(tickets, from, n, o), tail)
  {
    var m := Mark(tickets, from, n, o);
    forall k | 0 <= k < |m| && m[k].Won? ensures k + 1 - LostCount(m[..k]) <= tail {
      MarkLostBelow(tickets, from, n, o, k);
      if from <= k < from + n {
        LostGrows(tickets, from, k);
      } else {
        assert tickets[k].Won?;
      }
    }
  }

  /** The words decide no more than is really left. */
  lemma GrantedIsLeft(left: int, desired: nat)
    requires left >= -HALF
    ensures Granted(left, desired) > 0 ==> Granted(left, desired) <= left
    ensures Granted(left, desired) <= desired
    ensures left < HALF ==> Granted(left, desired) == if left <= 0 then 0 else if desired < left then desired else left
  {
    var w := Wrap(left);
    if left >= 0 { assert w <= left; }
    if left < 0 { WrapUnique(left, left + WORD, -1); }
    if 0 <= left < WORD { WrapUnique(left, left, 0); }
    if w == 0 { WrapUnique(0 - w, 0, 0); } else { WrapUnique(0 - w, WORD - w, -1); }
  }

  /** And exactly then, within a turn. */
  lemma GrantedIsRightWithinHalfATurn(left: int, desired: nat)
    requires -WORD < left < WORD && desired > 0
    ensures Granted(left, desired) <= (if left > 0 then left else 0) <==> left >= -HALF
  {
    if left >= -HALF {
      GrantedIsLeft(left, desired);
    } else {
      WrapUnique(left, left + WORD, -1);
      WrapUnique(-(left + WORD), -left, -1);
    }
  }

  /** A thread settles the first n of the tickets it has in hand; everybody else is unaffected. */
  lemma SettleKeeps(s: State, s': State, t: nat, n: nat, o: Ticket)
    requires Inv(s) && t < |s.pc| == |s'.pc| && s'.pc == s.pc[t := s'.pc[t]] && !o.Drawn?
    requires InHand(s.pc[t]).0 >= 0 && InHand(s.pc[t]).0 + n <= InHand(s.pc[t]).1
    requires s'.tickets == Mark(s.tickets, InHand(s.pc[t]).0, n, o) && s.over <= s'.over && s'.claims == s.claims
    requires InHand(s'.pc[t]) == (InHand(s.pc[t]).0 + n, InHand(s.pc[t]).1)
             || (InHand(s.pc[t]).0 + n == InHand(s.pc[t]).1 && InHand(s'.pc[t]) == (0, 0))
    requires PcOk(s'.tickets, s'.over, s'.claims, t, s'.pc[t])
    ensures forall u :: 0 <= u < |s'.pc| ==> PcOk(s'.tickets, s'.over, s'.claims, u, s'.pc[u])
    ensures DrawnAreInHand(s'.tickets, s'.pc)
  {
    var from := InHand(s.pc[t]).0;
    assert PcOk(s.tickets, s.over, s.claims, t, s.pc[t]);
    forall u | 0 <= u < |s.pc| ensures PcOk(s'.tickets, s'.over, s'.claims, u, s'.pc[u]) {
      if u != t {
        MarkIsProgress(s.tickets, from, n, o, t, u);
        OtherKeeps(s, s', u);
      }
    }
  }

  /** Settling tickets in hand: what it does to the counts. */
  lemma SettleCounts(s: State, t: nat, n: nat, o: Ticket)
    requires Inv(s) && t < |s.pc| && (o.Won? || o.Lost?)
    requires InHand(s.pc[t]).0 >= 0 && InHand(s.pc[t]).0 + n <= InHand(s.pc[t]).1
    requires o.Won? && n > 0 ==> InHand(s.pc[t]).0 + n - LostCount(s.tickets[..InHand(s.pc[t]).0]) <= s.tail
    ensures var m := Mark(s.tickets, InHand(s.pc[t]).0, n, o);
      && LostCount(m) == LostCount(s.tickets) + (if o.Lost? then n else 0)
      && WonCount(m) == WonCount(s.tickets) + (if o.Won? then n else 0)
      && WinnersFit(m, s.tail)
  {
    var from := InHand(s.pc[t]).0;
    assert PcOk(s.tickets, s.over, s.claims, t, s.pc[t]);
    forall k | from <= k < from + n ensures s.tickets[k] == Drawn(t) {}
    MarkCounts(s.tickets, from, n, o, LostFn());
    MarkCounts(s.tickets, from, n, o, WonFn());
    MarkKeepsWinners(s.tickets, s.tail, from, n, o);
  }

  lemma DecideKeeps(s: State, t: nat)
    requires Inv(s) && Enabled(s, Run(t)) && s.pc[t].RereadTail? && NotLapped(s, s.pc[t])
    ensures Inv(Step(s, t))
  {
    hide WinnersFit, LostCount, WonCount;
    var s' := Step(s, t);
    var RereadTail(desired, over, mine) := s.pc[t];
    var actual := Granted(Left(s, s.pc[t]), desired);
    assert PcOk(s.tickets, s.over, s.claims, t, s.pc[t]);
    GrantedIsLeft(Left(s, s.pc[t]), desired);
    SettleCounts(s, t, actual, Won);
    SumUpdate(s.pc, ToClaimFn(), t, s'.pc[t]);
    SettleKeeps(s, s', t, actual, Won);
  }

  lemma GiveBackKeeps(s: State, t: nat)
    requires Inv(s) && Enabled(s, Run(t)) && s.pc[t].GiveBack?
    ensures Inv(Step(s, t))
  {
    var s' := Step(s, t);
    var GiveBack(n, mine, claim) := s.pc[t];
    assert PcOk(s.tickets, s.over, s.claims, t, s.pc[t]);
    SettleCounts(s, t, n, Lost);
    SumUpdate(s.pc, ToClaimFn(), t, s'.pc[t]);
    SettleKeeps(s, s', t, n, Lost);
  }

  lemma PcOnlyKeeps(s: State, s': State, t: nat)
    requires Inv(s) && t < |s.pc| == |s'.pc| && s' == s.(pc := s.pc[t := s'.pc[t]])
    requires ToClaim(s.pc[t]) == ToClaim(s'.pc[t]) && InHand(s.pc[t]) == InHand(s'.pc[t])
    requires PcOk(s.tickets, s.over, s.claims, t, s'.pc[t])
    ensures Inv(s')
  {
    hide PcOk, WinnersFit, LostCount, WonCount, InHand, ToClaim;
    SumUpdate(s.pc, ToClaimFn(), t, s'.pc[t]);
  }

  lemma ReadKeeps(s: State, t: nat)
    requires Inv(s) && Enabled(s, Run(t))
    requires s.pc[t].ReadTail? || s.pc[t].ReadOvercommit? || s.pc[t].ReadOptimistic?
    ensures Inv(Step(s, t))
  {
    assert PcOk(s.tickets, s.over, s.claims, t, s.pc[t]);
    PcOnlyKeeps(s, Step(s, t), t);
  }

  lemma ClaimKeeps(s: State, t: nat)
    requires Inv(s) && Enabled(s, Run(t)) && s.pc[t].Claim?
    ensures Inv(Step(s, t))
    ensures Head(Step(s, t)) <= s.tail
  {
    var s' := Step(s, t);
    assert PcOk(s.tickets, s.over, s.claims, t, s.pc[t]);
    SumUpdate(s.pc, ToClaimFn(), t, s'.pc[t]);
    forall u | 0 <= u < |s.pc| ensures PcOk(s'.tickets, s'.over, s'.claims, u, s'.pc[u]) {
      if u != t {
        assert Progress(s.tickets, s'.tickets, u);
        OtherKeeps(s, s', u);
      }
    }
    InvHeadUnderTail(s');
  }

  lemma InvHeadUnderTail(s: State)
    requires Inv(s)
    ensures Head(s) <= Head(s) + Unclaimed(s.pc) <= s.tail
  {
    WinnersUnderTail(s.tickets, s.tail);
    SumNonNegative(s.pc, ToClaimFn());
  }

  lemma NextInv(s: State, a: Action)
    requires Inv(s) && Enabled(s, a) && Steady(s, a)
    ensures Inv(Next(s, a))
  {
    match a {
      case Publish =>
      case Start(t, max) => PcOnlyKeeps(s, Next(s, a), t);
      case Finish(t) => PcOnlyKeeps(s, Next(s, a), t);
      case Run(t) =>
        match s.pc[t] {
          case Draw(_, _) => DrawKeeps(s, t);
          case RereadTail(_, _, _) => DecideKeeps(s, t);
          case GiveBack(_, _, _) => GiveBackKeeps(s, t);
          case Claim(_) => ClaimKeeps(s, t);
          case _ => ReadKeeps(s, t);
        }
    }
  }

  // ----- what every run guarantees -----

  ghost predicate Moves(s: State, a: Action, s': State) { Enabled(s, a) && Steady(s, a) && s' == Next(s, a) }

  ghost predicate Leads(s: State, s': State) { exists a :: Moves(s, a, s') }

  ghost predicate IsRun(run: seq<State>) {
    && run != [] && Init(run[0])
    && (forall i :: 0 <= i < |run| - 1 ==> Leads(run[i], run[i + 1]))
  }

  ghost predicate Reachable(s: State) { exists run :: IsRun(run) && run[|run| - 1] == s }

  lemma {:induction false} RunInv(run: seq<State>, i: nat)
    requires IsRun(run) && i < |run|
    ensures Inv(run[i])
  {
    if i == 0 {
      InitInv(run[0]);
    } else {
      RunInv(run, i - 1);
      assert Leads(run[i - 1], run[i - 1 + 1]);
      var a :| Moves(run[i - 1], a, run[i]);
      NextInv(run[i - 1], a);
    }
  }

  lemma ReachableInv(s: State)
    requires Reachable(s)
    ensures Inv(s)
  {
    var run :| IsRun(run) && run[|run| - 1] == s;
    RunInv(run, |run| - 1);
  }

  /** headIndex never passes tailIndex, not even once every thread that has been promised elements
      has claimed them, although each decided on stale readings of the other counters. */
  lemma HeadNeverPassesTail(s: State)
    requires Reachable(s)
    ensures Head(s) + Unclaimed(s.pc) <= s.tail && 0 <= Unclaimed(s.pc)
  {
    ReachableInv(s);
    InvHeadUnderTail(s);
    SumNonNegative(s.pc, ToClaimFn());
  }

  lemma Disjoint(claims: seq<nat>, t: nat, first: nat, n: nat, u: nat, first': nat, n': nat)
    requires n > 0 && n' > 0 && first + n <= |claims| && first' + n' <= |claims| && t != u
    requires forall k :: first <= k < first + n ==> claims[k] == t
    requires forall k :: first' <= k < first' + n' ==> claims[k] == u
    ensures first + n <= first' || first' + n' <= first
  {
    assert claims[first] == t && claims[first'] == u;
  }

  /** The index ranges that threads are reading lie below the head, hence below the tail, and no two
      threads have an index in common. */
  lemma ClaimsAreDisjoint(s: State, t: nat, u: nat)
    requires Reachable(s) && t < |s.pc| && s.pc[t].Claimed?
    requires u < |s.pc| && s.pc[u].Claimed? && t != u
    ensures s.pc[t].first + s.pc[t].n <= Head(s) <= s.tail
    ensures s.pc[t].first + s.pc[t].n <= s.pc[u].first || s.pc[u].first + s.pc[u].n <= s.pc[t].first
  {
    HeadNeverPassesTail(s);
    ReachableInv(s);
    assert PcOk(s.tickets, s.over, s.claims, t, s.pc[t]) && PcOk(s.tickets, s.over, s.claims, u, s.pc[u]);
    Disjoint(s.claims, t, s.pc[t].first, s.pc[t].n, u, s.pc[u].first, s.pc[u].n);
  }

  /** Indices are handed out in order, each once: a claim takes exactly the next n. */
  lemma ClaimTakesTheNextIndices(s: State, t: nat)
    requires Reachable(s) && Enabled(s, Run(t)) && s.pc[t].Claim?
    ensures Step(s, t).pc[t] == if s.pc[t].n > 0 then Claimed(Head(s), s.pc[t].n) else Idle
    ensures Head(Step(s, t)) == Head(s) + s.pc[t].n <= s.tail
  {
    ReachableInv(s);
    ClaimKeeps(s, t);
  }

  lemma {:induction false} AllDecided(tickets: seq<Ticket>)
    requires forall k :: 0 <= k < |tickets| ==> !tickets[k].Drawn?
    ensures WonCount(tickets) + LostCount(tickets) == |tickets|
  {
    if tickets != [] {
      assert !tickets[0].Drawn?;
      forall k | 0 <= k < |tickets[1..]| ensures !tickets[1..][k].Drawn? { assert tickets[1..][k] == tickets[k + 1]; }
      AllDecided(tickets[1..]);
    }
  }

  /** The optimistic count and the overcommit drift apart only while calls are under way: once every
      ticket has been decided and claimed or given back, their difference is the head again. */
  lemma QuietCountersAgree(s: State)
    requires Reachable(s)
    requires forall t :: 0 <= t < |s.pc| ==> s.pc[t].Idle? || s.pc[t].Claimed?
    ensures Optimistic(s) - s.over == Head(s)
  {
    ReachableInv(s);
    AllDecided(s.tickets);
    SumZero(s.pc, ToClaimFn());
  }

  /** The first of the tickets in the hand of a lone dequeuer that nobody drew after. */
  lemma LoneTicket(s: State, t: nat)
    requires Inv(s) && t < |s.pc| && s.pc[t].RereadTail?
    requires forall u :: 0 <= u < |s.pc| && u != t ==> s.pc[u].Idle? || s.pc[u].Claimed?
    requires s.pc[t].mine + s.pc[t].desired == Optimistic(s)
    ensures s.pc[t].mine == s.over + Head(s)
  {
    var mine := s.pc[t].mine;
    assert PcOk(s.tickets, s.over, s.claims, t, s.pc[t]);
    var a, b := s.tickets[..mine], s.tickets[mine..];
    assert s.tickets == a + b;
    forall k | 0 <= k < |b| ensures b[k] == Drawn(t) { assert b[k] == s.tickets[mine + k]; }
    forall k | 0 <= k < |a| ensures !a[k].Drawn? { assert a[k] == s.tickets[k]; }
    SumAppend(a, b, LostFn());
    SumAppend(a, b, WonFn());
    SumConstant(b, LostFn(), 0);
    SumConstant(b, WonFn(), 0);
    AllDecided(a);
    SumZero(s.pc, ToClaimFn());
  }

  /** A dequeuer that is alone misses nothing: if no other call is under way and none lost a ticket
      since it read the overcommit, it is granted all it asked for or all the queue holds. */
  lemma AloneTakesWhatIsThere(s: State, t: nat)
    requires Reachable(s) && t < |s.pc| && s.pc[t].RereadTail?
    requires forall u :: 0 <= u < |s.pc| && u != t ==> s.pc[u].Idle? || s.pc[u].Claimed?
    requires s.pc[t].over == s.over && s.pc[t].mine + s.pc[t].desired == Optimistic(s)
    requires s.tail - Head(s) < HALF
    ensures Granted(Left(s, s.pc[t]), s.pc[t].desired) ==
            if s.pc[t].desired < s.tail - Head(s) then s.pc[t].desired else s.tail - Head(s)
  {
    assert s.pc[t].mine == s.over + Head(s) by {
      ReachableInv(s);
      LoneTicket(s, t);
    }
    HeadNeverPassesTail(s);
    GrantedIsLeft(Left(s, s.pc[t]), s.pc[t].desired);
  }

  // ----- half a turn -----

  lemma Go(s: State, a: Action)
    requires Reachable(s) && Enabled(s, a) && Steady(s, a)
    ensures Reachable(Next(s, a))
  {
    hide Init, Enabled, Next;
    var s' := Next(s, a);
    var run :| IsRun(run) && run[|run| - 1] == s;
    assert Moves(s, a, s');
    var longer := run + [s'];
    forall i | 0 <= i < |longer| - 1 ensures Leads(longer[i], longer[i + 1]) {
      if i < |run| - 1 { assert Leads(run[i], run[i + 1]); }
    }
    assert IsRun(longer) && longer[|longer| - 1] == s';
  }

  lemma {:induction false} Published(n: nat, threads: nat)
    ensures Reachable(State(n, 0, [], [], seq(threads, _ => Idle)))
  {
    var s := State(if n > 0 then n - 1 else 0, 0, [], [], seq(threads, _ => Idle));
    if n == 0 {
      assert IsRun([s]) && [s][|[s]| - 1] == s;
    } else {
      Published(n - 1, threads);
      Go(s, Publish);
    }
  }

  /** A thread reads the counters of a queue that nobody has dequeued from. */
  lemma ReadsFresh(s: State, t: nat, max: nat)
    requires Reachable(s) && t < |s.pc| && s.pc[t] == Idle && s.over == 0 && s.tickets == [] && 0 < s.tail < HALF
    ensures Reachable(s.(pc := s.pc[t := Draw(if s.tail < max then s.tail else max, 0)]))
  {
    hide Reachable;
    WrapUnique(s.tail, s.tail, 0);
    WrapUnique(0 - s.tail, WORD - s.tail, -1);
    Go(s, Start(t, max));
    var s1 := Next(s, Start(t, max));
    Go(s1, Run(t));
    var s2 := Next(s1, Run(t));
    Go(s2, Run(t));
    var s3 := Next(s2, Run(t));
    Go(s3, Run(t));
    assert Next(s3, Run(t)) == s.(pc := s.pc[t := Draw(if s.tail < max then s.tail else max, 0)]);
  }

  function FourDraws(n: nat, k: nat): seq<Ticket> {
    seq(n, _ => Drawn(0)) + seq(n, _ => Drawn(1)) + seq(k, _ => Drawn(2)) + seq(1, _ => Drawn(3))
  }

  /** Four threads have read the counters of a queue of n elements at once and drawn n, n, k and 1 tickets. */
  function Overslept(n: nat, k: nat): State {
    State(n, 0, FourDraws(n, k), [],
          [RereadTail(n, 0, 0), RereadTail(n, 0, n), RereadTail(k, 0, 2 * n), RereadTail(1, 0, 2 * n + k)])
  }

  lemma FourRead(n: nat, k: nat)
    requires 0 < k <= n < HALF
    ensures Reachable(State(n, 0, [], [], [Draw(n, 0), Draw(n, 0), Draw(k, 0), Draw(1, 0)]))
  {
    hide Reachable;
    Published(n, 4);
    var s := State(n, 0, [], [], [Idle, Idle, Idle, Idle]);
    assert seq(4, _ => Idle) == [Idle, Idle, Idle, Idle];
    ReadsFresh(s, 0, n);
    var s0 := s.(pc := [Draw(n, 0), Idle, Idle, Idle]);
    assert s0.pc == s.pc[0 := Draw(n, 0)];
    ReadsFresh(s0, 1, n);
    var s1 := s.(pc := [Draw(n, 0), Draw(n, 0), Idle, Idle]);
    assert s1.pc == s0.pc[1 := Draw(n, 0)];
    ReadsFresh(s1, 2, k);
    var s2 := s.(pc := [Draw(n, 0), Draw(n, 0), Draw(k, 0), Idle]);
    assert s2.pc == s1.pc[2 := Draw(k, 0)];
    ReadsFresh(s2, 3, 1);
    assert [Draw(n, 0), Draw(n, 0), Draw(k, 0), Draw(1, 0)] == s2.pc[3 := Draw(1, 0)];
  }

  /** A draw adds tickets and gives the thread the first of them. */
  lemma Draws(s: State, t: nat, n: nat)
    requires Reachable(s) && t < |s.pc| && s.pc[t] == Draw(n, 0)
    ensures Reachable(s.(tickets := s.tickets + seq(n, _ => Drawn(t)), pc := s.pc[t := RereadTail(n, 0, |s.tickets|)]))
  {
    hide Reachable;
    Go(s, Run(t));
  }

  lemma OversleptIsReachable(n: nat, k: nat)
    requires 0 < k <= n < HALF
    ensures Reachable(Overslept(n, k))
  {
    hide Reachable;
    var d0, d1, d2, d3 := seq(n, _ => Drawn(0)), seq(n, _ => Drawn(1)), seq(k, _ => Drawn(2)), seq(1, _ => Drawn(3));
    FourRead(n, k);
    var r0, r1, r2, r3 := RereadTail(n, 0, 0), RereadTail(n, 0, n), RereadTail(k, 0, 2 * n), RereadTail(1, 0, 2 * n + k);
    var s := State(n, 0, [], [], [Draw(n, 0), Draw(n, 0), Draw(k, 0), Draw(1, 0)]);
    Draws(s, 0, n);
    var s0 := State(n, 0, d0, [], [r0, Draw(n, 0), Draw(k, 0), Draw(1, 0)]);
    assert [] + d0 == d0 && s0.pc == s.pc[0 := r0];
    Draws(s0, 1, n);
    var s1 := State(n, 0, d0 + d1, [], [r0, r1, Draw(k, 0), Draw(1, 0)]);
    assert s1.pc == s0.pc[1 := r1];
    Draws(s1, 2, k);
    var s2 := State(n, 0, d0 + d1 + d2, [], [r0, r1, r2, Draw(1, 0)]);
    assert s2.pc == s1.pc[2 := r2];
    Draws(s2, 3, 1);
    assert Overslept(n, k).pc == s2.pc[3 := r3];
  }

  /** A thread whose tickets are the first decides: it wins all of them if there are as many elements. */
  lemma DecidesAll(s: State, n: nat)
    requires 0 < n < HALF && s.tail == n && s.pc != [] && s.pc[0] == RereadTail(n, 0, 0)
    ensures Enabled(s, Run(0)) && Steady(s, Run(0))
    ensures Next(s, Run(0)) == s.(tickets := Mark(s.tickets, 0, n, Won), pc := s.pc[0 := Claim(n)])
  {
    hide Mark;
    GrantedIsLeft(n, n);
    WrapUnique(n, n, 0);
  }

  /** A thread that reads just over half a turn less than there is decides that there is some. */
  lemma DecidesOne(s: State, t: nat, mine: nat)
    requires t < |s.pc| && s.pc[t] == RereadTail(1, 0, mine) && s.tail - mine == -HALF - 1
    ensures Enabled(s, Run(t)) && Granted(Left(s, s.pc[t]), 1) == 1 && Step(s, t).tickets == Mark(s.tickets, mine, 1, Won)
  {
    hide Mark;
    WrapUnique(-HALF - 1, HALF - 1, -1);
    WrapUnique(0 - (HALF - 1), HALF + 1, -1);
  }

  lemma WonBy(tickets: seq<Ticket>, n: nat, t: nat)
    requires n <= |tickets| && forall k :: 0 <= k < |tickets| ==> tickets[k].Drawn?
    requires n <= t < |tickets|
    ensures var first := Mark(tickets, 0, n, Won);
      WonCount(first) == n && WonCount(Mark(first, t, 1, Won)) == n + 1
  {
    forall k | 0 <= k < |tickets| ensures WonTicket(tickets[k]) == 0 {}
    SumZero(tickets, WonFn());
    MarkCounts(tickets, 0, n, Won, WonFn());
    MarkCounts(Mark(tickets, 0, n, Won), t, 1, Won, WonFn());
  }

  /** Half a turn matters, for every number n of elements from a quarter of a turn up: in a state that steady
      steps lead to, the first thread has won all elements that are there, and the last, which has slept too
      long, is granted one more. */
  lemma OversleptThreadWinsTooMuch(n: nat) returns (s: State)
    requires HALF < 2 * n < WORD
    ensures Reachable(s) && Enabled(s, Run(3)) && s.pc[3].RereadTail? && Left(s, s.pc[3]) == -HALF - 1
    ensures Granted(Left(s, s.pc[3]), s.pc[3].desired) == 1
    ensures WonCount(s.tickets) == s.tail == n && WonCount(Step(s, 3).tickets) == n + 1
  {
    hide Reachable, WonCount, Next, Enabled, Steady, Mark, Step;
    var k := HALF + 1 - n;
    var before := Overslept(n, k);
    OversleptIsReachable(n, k);
    DecidesAll(before, n);
    Go(before, Run(0));
    s := Next(before, Run(0));
    DecidesOne(s, 3, 2 * n + k);
    AllAreDrawn(n, k);
    WonBy(before.tickets, n, 2 * n + k);
  }

  lemma AllAreDrawn(n: nat, k: nat)
    ensures |FourDraws(n, k)| == 2 * n + k + 1 && forall i :: 0 <= i < 2 * n + k + 1 ==> FourDraws(n, k)[i].Drawn?
  {
  }

  // ----- the counters as an object updated in place -----

  /** tailIndex, headIndex, dequeueOptimisticCount and dequeueOvercommit, and the dequeuing threads.
      Each method performs the next atomic operation of one thread. */
  class DequeueCounters {
    var tailIndex: nat
    var headIndex: nat
    var dequeueOptimisticCount: nat
    var dequeueOvercommit: nat
    var threads: seq<PC>
    ghost var tickets: seq<Ticket>
    ghost var claims: seq<nat>

    ghost function Snapshot(): State
      reads this
    {
      State(tailIndex, dequeueOvercommit, tickets, claims, threads)
    }

    ghost predicate Valid()
      reads this
    {
      && Inv(Snapshot())
      && dequeueOptimisticCount == |tickets| && headIndex == |claims|
    }

    constructor (threadCount: nat)
      ensures Init(Snapshot()) && Valid() && |threads| == threadCount
    {
      tailIndex, headIndex, dequeueOptimisticCount, dequeueOvercommit := 0, 0, 0, 0;
      threads := seq(threadCount, _ => Idle);
      tickets, claims := [], [];
      new;
      InitInv(Snapshot());
    }

    method PublishTail()
      requires Valid()
      modifies this
      ensures Snapshot() == Next(old(Snapshot()), Publish) && Valid()
    {
      NextInv(Snapshot(), Publish);
      tailIndex := tailIndex + 1;
    }

    method CallDequeueBulk(t: nat, max: nat)
      requires Valid() && Enabled(Snapshot(), Start(t, max))
      modifies this
      ensures Snapshot() == Next(old(Snapshot()), Start(t, max)) && Valid()
    {
      NextInv(Snapshot(), Start(t, max));
      threads := threads[t := ReadTail(max)];
    }

    /** The three readings that decide whether to draw a ticket at all. */
    method RunLook(t: nat)
      requires Valid() && t < |threads|
      requires threads[t].ReadTail? || threads[t].ReadOvercommit? || threads[t].ReadOptimistic?
      modifies this
      ensures Snapshot() == Step(old(Snapshot()), t) && Valid()
    {
      hide PcOk, WinnersFit, LostCount, WonCount, InHand, ToClaim;
      NextInv(Snapshot(), Run(t));
      match threads[t] {
        case ReadTail(max) => threads := threads[t := ReadOvercommit(max, tailIndex)];
        case ReadOvercommit(max, tail) => threads := threads[t := ReadOptimistic(max, tail, dequeueOvercommit)];
        case ReadOptimistic(max, tail, overcommit) =>
          var desiredCount := Wrap(tail - (dequeueOptimisticCount - overcommit));
          if CircularLess(0, desiredCount) {
            threads := threads[t := Draw(if desiredCount < max then desiredCount else max, overcommit)];
          } else {
            threads := threads[t := Idle];
          }
      }
    }

    /** dequeueOptimisticCount.fetch_add(desiredCount). */
    method RunDraw(t: nat)
      requires Valid() && t < |threads| && threads[t].Draw?
      modifies this
      ensures Snapshot() == Step(old(Snapshot()), t) && Valid()
    {
      NextInv(Snapshot(), Run(t));
      var Draw(desired, overcommit) := threads[t];
      threads := threads[t := RereadTail(desired, overcommit, dequeueOptimisticCount)];
      dequeueOptimisticCount := dequeueOptimisticCount + desired;
      tickets := tickets + seq(desired, _ => Drawn(t));
    }

    /** The second reading of the tail, and the count it allows. */
    method RunDecide(t: nat) returns (actual: nat)
      requires Valid() && t < |threads| && threads[t].RereadTail?
      modifies this
      ensures Snapshot() == Step(old(Snapshot()), t)
      ensures old(NotLapped(Snapshot(), threads[t])) ==> Valid()
      ensures actual == Granted(Left(old(Snapshot()), old(threads[t])), old(threads[t]).desired)
    {
      hide PcOk, WinnersFit, LostCount, WonCount, InHand, ToClaim;
      ghost var before := Snapshot();
      var RereadTail(desired, overcommit, mine) := threads[t];
      actual := Wrap(tailIndex - (mine - overcommit));
      if CircularLess(0, actual) {
        actual := if desired < actual then desired else actual;
        threads := threads[t := if actual < desired then GiveBack(desired - actual, mine + actual, actual) else Claim(actual)];
      } else {
        actual := 0;
        threads := threads[t := GiveBack(desired, mine, 0)];
      }
      tickets := Mark(tickets, mine, actual, Won);
      assert Snapshot() == Step(before, t);
      if NotLapped(before, before.pc[t]) { NextInv(before, Run(t)); }
    }

    /** dequeueOvercommit.fetch_add of the tickets that found nothing. */
    method RunGiveBack(t: nat)
      requires Valid() && t < |threads| && threads[t].GiveBack?
      modifies this
      ensures Snapshot() == Step(old(Snapshot()), t) && Valid()
    {
      NextInv(Snapshot(), Run(t));
      var GiveBack(n, mine, claim) := threads[t];
      dequeueOvercommit := dequeueOvercommit + n;
      threads := threads[t := if claim > 0 then Claim(claim) else Idle];
      tickets := Mark(tickets, mine, n, Lost);
    }

    /** headIndex.fetch_add: the claimed indices start at `firstIndex` and end no later than the tail. */
    method RunClaim(t: nat) returns (firstIndex: nat)
      requires Valid() && t < |threads| && threads[t].Claim?
      modifies this
      ensures Snapshot() == Step(old(Snapshot()), t) && Valid()
      ensures firstIndex == old(headIndex) && headIndex == firstIndex + old(threads[t]).n <= tailIndex
    {
      NextInv(Snapshot(), Run(t));
      ClaimKeeps(Snapshot(), t);
      var n := threads[t].n;
      firstIndex := headIndex;
      headIndex := headIndex + n;
      threads := threads[t := AfterClaim(firstIndex, n)];
      claims := claims + seq(n, _ => t);
    }

    /** The claimed elements have been read: the call returns. */
    method RunReturn(t: nat)
      requires Valid() && t < |threads| && threads[t].Claimed?
      modifies this
      ensures Snapshot() == Next(old(Snapshot()), Finish(t)) && Valid()
    {
      NextInv(Snapshot(), Finish(t));
      threads := threads[t := Idle];
    }
  }
}
