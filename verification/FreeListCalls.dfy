/** What the calls on the free list come to: a try_get finds nothing only if the list was empty at some moment
    of the call, and what it returns it has taken from the front; on a list at rest both operations do the
    whole of what they are for. */
module FreeListCalls {
  import opened Options
  import opened Counting
  import opened FreeLists

  // ----- a try_get among the steps of all threads -----

  /** The states that the actions go through. */
  ghost predicate IsTrace(states: seq<State>, acts: seq<Action>) {
    && |states| == |acts| + 1 && Reachable(states[0])
    && forall i :: 0 <= i < |acts| ==> Moves(states[i], acts[i], states[i + 1])
  }

  predicate AtRest(s: State, t: nat) { t < |s.pc| && s.pc[t] == Idle }

  /** From the call to its return. */
  ghost predicate IsTryGet(states: seq<State>, acts: seq<Action>, t: nat) {
    && IsTrace(states, acts) && acts != [] && acts[0] == StartGet(t)
    && (forall i :: 0 < i < |acts| ==> !AtRest(states[i], t))
    && AtRest(states[|acts|], t)
  }

  /** One of the first n states after the call had no first node. */
  ghost predicate WasEmpty(states: seq<State>, n: nat) { exists k :: 0 < k <= n && k < |states| && states[k].head == None && states[k].list == [] }

  /** One of the first n steps took node m from the front of the list, for thread t. */
  ghost predicate TookFirst(states: seq<State>, acts: seq<Action>, t: nat, m: nat, n: nat) {
    exists k :: 0 < k < n && n <= |acts| < |states| && acts[k] == Run(t) && states[k].list != [] && states[k].list[0] == m
                && states[k + 1].list == states[k].list[1..]
  }

  /** A head read during the call. */
  predicate InHand(p: PC, h: Option<nat>) {
    match p
    case GetRefs(head) => head == h
    case GetDrop(_, head) => head == h
    case PushLoad(_, ret) => ret == Resume(h)
    case PushLink(_, _, ret) => ret == Resume(h)
    case PushRef(_, _, ret) => ret == Resume(h)
    case PushCas(_, _, ret) => ret == Resume(h)
    case PushUndo(_, _, ret) => ret == Resume(h)
    case _ => false
  }

  /** Inside try_get. */
  predicate Getting(p: PC) {
    match p
    case Idle => false
    case Add(_) => false
    case PushLoad(_, ret) => ret.Resume?
    case PushLink(_, _, ret) => ret.Resume?
    case PushRef(_, _, ret) => ret.Resume?
    case PushCas(_, _, ret) => ret.Resume?
    case PushUndo(_, _, ret) => ret.Resume?
    case _ => true
  }

  /** The step of a thread in try_get. */
  lemma GettingStep(s: State, t: nat)
    requires WellFormed(s) && t < |s.pc| && Getting(s.pc[t])
    ensures var s' := Step(s, t); var p, p' := s.pc[t], s'.pc[t];
      && |s'.pc| == |s.pc|
      && (p' == Idle ==> p == GetRefs(None) || p.GetTake?)
      && (p' != Idle ==> Getting(p'))
      && (InHand(p', None) ==> InHand(p, None) || s.head == None)
      && (p'.GetAssert? ==> p.GetCas? && p.n == p'.n && s.head == Some(p.n))
      && (p'.GetTake? ==> p == GetAssert(p'.n))
  {
  }

  lemma OtherThread(s: State, a: Action, t: nat)
    requires Enabled(s, a) && t < |s.pc| && s.pc[t] != Idle && a != Run(t)
    ensures var s' := Next(s, a); t < |s'.pc| && s'.pc[t] == s.pc[t]
  {
  }

  lemma {:induction false} TraceInv(states: seq<State>, acts: seq<Action>, i: nat)
    requires IsTrace(states, acts) && i <= |acts|
    ensures Inv(states[i])
  {
    hide Inv, Reachable, Enabled, Next;
    if i == 0 {
      ReachableInv(states[0]);
    } else {
      TraceInv(states, acts, i - 1);
      assert Moves(states[i - 1], acts[i - 1], states[i - 1 + 1]);
      NextInv(states[i - 1], acts[i - 1]);
    }
  }

  lemma EmptyMeansNone(s: State)
    requires Inv(s)
    ensures s.head == None <==> s.list == []
    ensures s.head.Some? ==> s.list[0] == s.head.value
  {
    hide ChargeOk, RefsOk, NextOk, WellFormed;
  }

  lemma PopStep(s: State, t: nat)
    requires Inv(s) && t < |s.pc| && s.pc[t].GetCas? && s.head == Some(s.pc[t].n)
    ensures s.list != [] && s.list[0] == s.pc[t].n && Step(s, t).list == s.list[1..]
  {
    EmptyMeansNone(s);
  }

  /** During the call: what it has read, and what it has taken. */
  ghost predicate Underway(states: seq<State>, acts: seq<Action>, t: nat, n: nat)
    requires 0 < n < |states|
  {
    && t < |states[n].pc| && Getting(states[n].pc[t])
    && (InHand(states[n].pc[t], None) ==> WasEmpty(states, n))
    && (states[n].pc[t].GetAssert? || states[n].pc[t].GetTake? ==> TookFirst(states, acts, t, states[n].pc[t].n, n))
  }

  lemma StepOn(states: seq<State>, acts: seq<Action>, t: nat, n: nat)
    requires IsTrace(states, acts) && 0 < n < |acts| && Underway(states, acts, t, n)
    ensures t < |states[n + 1].pc| && (!AtRest(states[n + 1], t) ==> Underway(states, acts, t, n + 1))
    ensures AtRest(states[n + 1], t) ==>
      acts[n] == Run(t) && (states[n].pc[t] == GetRefs(None) || states[n].pc[t].GetTake?)
  {
    hide Inv, Reachable, Step, Getting, InHand;
    assert Moves(states[n], acts[n], states[n + 1]);
    TraceInv(states, acts, n);
    var s, a := states[n], acts[n];
    NotIdle(s.pc[t]);
    if a == Run(t) {
      WellFormedIs(s);
      GettingStep(s, t);
      EmptyMeansNone(s);
      if s.pc[t].GetCas? && s.head == Some(s.pc[t].n) { PopStep(s, t); }
    } else {
      OtherThread(s, a, t);
    }
    if WasEmpty(states, n) { assert WasEmpty(states, n + 1); }
  }

  lemma NotIdle(p: PC)
    ensures Getting(p) ==> p != Idle
  {
  }

  lemma WellFormedIs(s: State)
    requires Inv(s)
    ensures WellFormed(s)
  {
    hide WellFormed;
  }

  lemma {:induction false} CallGoesOn(states: seq<State>, acts: seq<Action>, t: nat, n: nat)
    requires IsTrace(states, acts) && acts != [] && acts[0] == StartGet(t) && 0 < n <= |acts|
    requires forall k :: 0 < k <= n ==> !AtRest(states[k], t)
    ensures Underway(states, acts, t, n)
  {
    hide Inv, Reachable, Underway;
    if n > 1 {
      CallGoesOn(states, acts, t, n - 1);
      StepOn(states, acts, t, n - 1);
    } else {
      assert Moves(states[0], acts[0], states[0 + 1]);
      Begins(states, acts, t);
    }
  }

  lemma Begins(states: seq<State>, acts: seq<Action>, t: nat)
    requires |states| > 1 && Enabled(states[0], StartGet(t)) && states[1] == Next(states[0], StartGet(t))
    ensures Underway(states, acts, t, 1)
  {
  }

  predicate IsClients(s: State, m: nat) { m < |s.place| && s.place[m] == Client }

  lemma HandsOver(s: State, t: nat)
    requires Enabled(s, Run(t)) && s.pc[t].GetTake?
    ensures IsClients(Next(s, Run(t)), s.pc[t].n)
  {
  }

  lemma OnlyBegun(states: seq<State>, acts: seq<Action>, t: nat)
    requires IsTrace(states, acts) && acts != [] && acts[0] == StartGet(t)
    ensures !AtRest(states[1], t)
  {
    assert Moves(states[0], acts[0], states[0 + 1]);
  }

  /** However the steps of other threads fall between, a try_get that returns a node has taken it from the
      front of the list, and one that returns none came upon an empty list. */
  lemma EmptyOnlyIfItWas(states: seq<State>, acts: seq<Action>, t: nat)
    requires IsTryGet(states, acts, t)
    ensures var last := states[|acts| - 1];
      && t < |last.pc| && acts[|acts| - 1] == Run(t)
      && if last.pc[t].GetTake? then TookFirst(states, acts, t, last.pc[t].n, |acts|) && IsClients(states[|acts|], last.pc[t].n)
         else last.pc[t] == GetRefs(None) && WasEmpty(states, |acts|)
  {
    hide Inv, Reachable, Step;
    var n := |acts| - 1;
    if n == 0 { OnlyBegun(states, acts, t); }
    CallGoesOn(states, acts, t, n);
    StepOn(states, acts, t, n);
    if WasEmpty(states, n) { assert WasEmpty(states, n + 1); }
    assert Moves(states[n], acts[n], states[n + 1]);
    if states[n].pc[t].GetTake? { HandsOver(states[n], t); }
  }

  // ----- calls on a list at rest -----

  ghost predicate Quiet(s: State) { Reachable(s) && forall t :: 0 <= t < |s.pc| ==> s.pc[t] == Idle }

  /** After k more steps of thread t, if it has so many to make. */
  ghost function After(s: State, t: nat, k: nat): State
    decreases k
  {
    if k == 0 || !Enabled(s, Run(t)) then s else After(Next(s, Run(t)), t, k - 1)
  }

  lemma OneStep(s: State, t: nat, k: nat)
    requires Inv(s) && t < |s.pc| && s.pc[t] != Idle
    ensures Enabled(s, Run(t)) && Inv(Step(s, t)) && After(s, t, k + 1) == After(Step(s, t), t, k)
  {
    hide Inv, Step;
    WellFormedIs(s);
    NextInv(s, Run(t));
  }

  lemma {:induction false} AfterAfter(s: State, t: nat, k: nat, m: nat)
    ensures After(After(s, t, k), t, m) == After(s, t, k + m)
    decreases k
  {
    hide Enabled, Next;
    if k > 0 {
      if Enabled(s, Run(t)) { AfterAfter(Next(s, Run(t)), t, k - 1, m); } else { Still(s, t, m); Still(s, t, k + m); }
    }
  }

  lemma Still(s: State, t: nat, k: nat)
    requires !Enabled(s, Run(t))
    ensures After(s, t, k) == s
  {
  }

  lemma QuietFacts(s: State, t: nat)
    requires Quiet(s) && t < |s.pc|
    ensures Inv(s) && s.pc[t] == Idle && (s.head == None <==> s.list == [])
    ensures s.head.Some? ==> s.head == Some(s.list[0]) && s.list[0] < |s.refs| == |s.next| && s.refs[s.list[0]] == 1
  {
    hide Inv, Reachable;
    ReachableInv(s);
    EmptyMeansNone(s);
    if s.head.Some? {
      WellFormedIs(s);
      NothingIsLost(s, s.list[0]);
    }
  }

  /** The first half: the node is held. */
  lemma GetsHold(s: State, t: nat, m: nat)
    requires Inv(s) && t < |s.pc| && s.pc[t] == GetLoad && s.head == Some(m) && m < |s.refs| == |s.next| && s.refs[m] == 1
    ensures var s' := After(s, t, 4);
      && Inv(s') && t < |s'.pc| && m < |s'.next| && s'.pc[t] == GetCas(m, s'.next[m]) && s'.head == s.head && s'.list == s.list
  {
    hide Inv;
    OneStep(s, t, 3);
    var s1 := Step(s, t);
    OneStep(s1, t, 2);
    var s2 := Step(s1, t);
    OneStep(s2, t, 1);
    var s3 := Step(s2, t);
    OneStep(s3, t, 0);
  }

  lemma Pops(s: State, t: nat, m: nat)
    requires Inv(s) && t < |s.pc| && m < |s.next| && s.pc[t] == GetCas(m, s.next[m]) && s.head == Some(m)
    ensures var s' := After(s, t, 3);
      && s.list != [] && s.list[0] == m && AtRest(s', t) && IsClients(s', m) && s'.list == s.list[1..]
  {
    hide Inv;
    PopStep(s, t);
    OneStep(s, t, 2);
    var s1 := Step(s, t);
    OneStep(s1, t, 1);
    var s2 := Step(s1, t);
    OneStep(s2, t, 0);
    WellFormedIs(s2);
  }

  /** A try_get on a list at rest takes the first node, if there is one, in seven steps. */
  lemma GetAlone(s: State, t: nat)
    requires Quiet(s) && t < |s.pc|
    ensures Enabled(s, StartGet(t))
    ensures var s' := After(Next(s, StartGet(t)), t, 7);
      && AtRest(s', t)
      && if s.list == [] then s'.list == [] && s'.place == s.place
         else IsClients(s', s.list[0]) && s'.list == s.list[1..]
  {
    hide Inv, Reachable, Step;
    QuietFacts(s, t);
    WellFormedIs(s);
    NextInv(s, StartGet(t));
    var s0 := Next(s, StartGet(t));
    if s.head.Some? {
      GetsHold(s0, t, s.list[0]);
      Pops(After(s0, t, 4), t, s.list[0]);
      AfterAfter(s0, t, 4, 3);
    } else {
      FindsNone(s0, t);
      AfterAfter(s0, t, 2, 5);
      Still(After(s0, t, 2), t, 5);
    }
  }

  lemma FindsNone(s: State, t: nat)
    requires Inv(s) && t < |s.pc| && s.pc[t] == GetLoad && s.head == None
    ensures var s' := After(s, t, 2); AtRest(s', t) && s'.list == s.list && s'.place == s.place && !Enabled(s', Run(t))
  {
    hide Inv;
    OneStep(s, t, 1);
    OneStep(Step(s, t), t, 0);
  }

  /** An add to a list at rest puts the node in front, in five steps. */
  lemma AddAlone(s: State, t: nat, n: nat)
    requires Quiet(s) && t < |s.pc| && n < |s.refs| == |s.place| && s.place[n] == Client
    ensures Enabled(s, StartAdd(t, n))
    ensures var s' := After(Next(s, StartAdd(t, n)), t, 5); AtRest(s', t) && s'.list == [n] + s.list
  {
    hide Inv, Reachable;
    QuietFacts(s, t);
    WellFormedIs(s);
    NothingIsLost(s, n);
    NextInv(s, StartAdd(t, n));
    var s0 := Next(s, StartAdd(t, n));
    OneStep(s0, t, 4);
    var s1 := Step(s0, t);
    OneStep(s1, t, 3);
    var s2 := Step(s1, t);
    OneStep(s2, t, 2);
    var s3 := Step(s2, t);
    OneStep(s3, t, 1);
    var s4 := Step(s3, t);
    OneStep(s4, t, 0);
  }
}
