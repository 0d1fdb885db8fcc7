/** What a dequeuer that nobody interferes with gets from the counters: all it asks for, or all that is there. */
module TicketCalls {
  import opened Counting
  import opened Words
  import opened Tickets

  /** The thread has drawn no tickets that are still to be decided or claimed. */
  predicate EmptyHanded(p: PC) { InHand(p) == (0, 0) && ToClaim(p) == 0 }

  ghost predicate Quiet(s: State) { forall u :: 0 <= u < |s.pc| ==> EmptyHanded(s.pc[u]) }

  /** Then the optimistic count less the overcommit is the head. */
  lemma QuietHead(s: State)
    requires Inv(s) && Quiet(s)
    ensures Optimistic(s) - s.over == Head(s) <= s.tail
  {
    InvHeadUnderTail(s);
    SumZero(s.pc, ToClaimFn());
    AllDecided(s.tickets);
  }

  function Size(s: State): int { s.tail - Head(s) }

  function Min(a: int, b: int): int { if a < b then a else b }

  /** All that t has read still holds, and of the others nobody has drawn tickets. */
  ghost predicate Undisturbed(s: State, t: nat) {
    && t < |s.pc| && Head(s) <= s.tail && Size(s) < HALF
    && match s.pc[t] {
         case ReadTail(_) => Optimistic(s) - s.over == Head(s)
         case ReadOvercommit(_, tail) => tail == s.tail && Optimistic(s) - s.over == Head(s)
         case ReadOptimistic(_, tail, over) => tail == s.tail && over == s.over && Optimistic(s) - s.over == Head(s)
         case Draw(desired, over) => over == s.over && Optimistic(s) - s.over == Head(s) && desired <= Size(s) && Size(s) > 0
         case RereadTail(desired, over, mine) => over == s.over && mine - over == Head(s) && desired <= Size(s) && Size(s) > 0
         case Claim(n) => n <= Size(s)
         case _ => false
       }
  }

  /** What it will get. */
  function Due(s: State, t: nat): int
    requires t < |s.pc|
  {
    match s.pc[t]
    case ReadTail(max) => Min(max, Size(s))
    case ReadOvercommit(max, _) => Min(max, Size(s))
    case ReadOptimistic(max, _, _) => Min(max, Size(s))
    case Draw(desired, _) => desired
    case RereadTail(desired, _, _) => desired
    case Claim(n) => n
    case _ => 0
  }

  function StepsLeft(p: PC): nat {
    match p
    case ReadTail(_) => 7
    case ReadOvercommit(_, _) => 6
    case ReadOptimistic(_, _, _) => 5
    case Draw(_, _) => 4
    case RereadTail(_, _, _) => 3
    case GiveBack(_, _, _) => 2
    case Claim(_) => 1
    case _ => 0
  }

  /** A call takes at most seven operations on the counters, whatever it reads. */
  lemma StepsFall(s: State, t: nat)
    requires Enabled(s, Run(t))
    ensures |Step(s, t).pc| == |s.pc| && StepsLeft(Step(s, t).pc[t]) < StepsLeft(s.pc[t]) <= 7
    ensures forall u :: 0 <= u < |s.pc| && u != t ==> Step(s, t).pc[u] == s.pc[u]
  {
    hide Mark, Granted, SomeLeft, CircularLess;
  }

  /** The call is over: it has claimed the n indices from `head` on, or there were none to claim. */
  predicate HasGot(s: State, t: nat, head: nat, n: int) {
    t < |s.pc| && Head(s) == head + n && if n > 0 then s.pc[t] == Claimed(head, n) else s.pc[t] == Idle
  }

  lemma LookTakes(tail: nat, head: int, opt: nat, over: nat)
    requires opt - over == head && 0 <= tail - head < HALF
    ensures Wrap(tail - (opt - over)) == tail - head && (CircularLess(0, tail - head) <==> tail - head > 0)
  {
    var d := tail - head;
    WrapUnique(d, d, 0);
    if d > 0 { WrapUnique(-d, WORD - d, -1); } else { WrapUnique(0, 0, 0); }
  }

  /** Nothing changes for it on the way. */
  lemma GoesOn(s: State, t: nat)
    requires Undisturbed(s, t) && Enabled(s, Run(t))
    ensures var s' := Step(s, t);
      && Steady(s, Run(t)) && s'.tail == s.tail
      && (if s.pc[t].Claim? || s'.pc[t] == Idle then HasGot(s', t, Head(s), Due(s, t))
          else Undisturbed(s', t) && Due(s', t) == Due(s, t) && Head(s') == Head(s))
  {
    hide Mark, CircularLess, Wrap;
    match s.pc[t] {
      case ReadOptimistic(_, _, over) => LookTakes(s.tail, Head(s), Optimistic(s), over);
      case RereadTail(desired, over, mine) =>
        LookTakes(s.tail, Head(s), mine, over);
        GrantedIsLeft(Left(s, s.pc[t]), desired);
      case _ =>
    }
  }

  lemma QuietStart(s: State, t: nat, max: nat)
    requires Inv(s) && Quiet(s) && Enabled(s, Start(t, max)) && Size(s) < HALF
    ensures var s' := Next(s, Start(t, max));
      Undisturbed(s', t) && Due(s', t) == Min(max, Size(s)) && Head(s') == Head(s) && s'.tail == s.tail
  {
    QuietHead(s);
  }
}
