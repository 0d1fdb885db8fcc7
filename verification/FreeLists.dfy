/** The reference-counted lock-free free list (`FreeList`, `add`, `try_get`,
    `add_knowing_refcount_is_zero`).  Every atomic operation of a thread is one step;
    any number of threads interleave freely. */
module FreeLists {
  import opened Counting
  import opened Options

  const SHOULD_BE_ON_FREELIST: int := 0x8000_0000
  const UINT32: int := 0x1_0000_0000

  /** What a thread does when the shared `add_knowing_refcount_is_zero` returns: leave `add`,
      or go on with the loop of `try_get` from the head it has in hand. */
  datatype Return = Leave | Resume(head: Option<nat>)

  /** Where a thread stands: the name says which atomic operation comes next. */
  datatype PC =
    | Idle
    | Add(n: nat)                                         // refs.fetch_add(SHOULD)
    | PushLoad(n: nat, ret: Return)                       // head := freeListHead
    | PushLink(n: nat, h: Option<nat>, ret: Return)       // next.store(head)
    | PushRef(n: nat, h: Option<nat>, ret: Return)        // refs.store(1)
    | PushCas(n: nat, h: Option<nat>, ret: Return)        // CAS(freeListHead, head, node)
    | PushUndo(n: nat, h: Option<nat>, ret: Return)       // refs.fetch_add(SHOULD - 1)
    | GetLoad                                             // head := freeListHead
    | GetRefs(head: Option<nat>)                          // while (head) refs := head->refs
    | GetInc(n: nat, r: int)                              // CAS(refs, refs + 1)
    | GetNext(n: nat)                                     // next := head->next
    | GetCas(n: nat, nx: Option<nat>)                     // CAS(freeListHead, head, next)
    | GetAssert(n: nat)                                   // assert((refs & SHOULD) == 0)
    | GetTake(n: nat)                                     // refs.fetch_sub(2)
    | GetDrop(n: nat, h: Option<nat>)                     // refs.fetch_sub(1) after a lost CAS

  /** What a thread in charge of a node is doing with it. */
  datatype Role = Adding | Pushing | Popping

  /** Where a node is: with a client, flagged and waiting for its last holder, on the list, or
      in the hands of exactly one thread. */
  datatype Place = Client | Waiting | Listed | Charged(t: nat, role: Role)

  /** `head`, `refs`, `next` and the threads are the program's state.  `list` (the nodes reachable
      from the head) and `place` are history: no step reads them. */
  datatype State = State(
    head: Option<nat>, refs: seq<int>, next: seq<Option<nat>>, pc: seq<PC>,
    list: seq<nat>, place: seq<Place>)

  datatype Action =
    | StartAdd(t: nat, n: nat)  // a client calls add(n) for a node it owns
    | StartGet(t: nat)          // a client calls try_get()
    | Create                    // a client allocates a node
    | Run(t: nat)               // thread t performs its next atomic operation

  // ----- the program -----

  function Leaving(ret: Return): PC {
    match ret
    case Leave => Idle
    case Resume(h) => GetRefs(h)
  }

  predicate NodeOk(s: State, o: Option<nat>) { o.Some? ==> o.value < |s.refs| }

  predicate ReturnOk(s: State, r: Return) { r.Resume? ==> NodeOk(s, r.head) }

  /** The node a thread works on, if it works on one. */
  predicate HasNode(p: PC) { !p.Idle? && !p.GetLoad? && !p.GetRefs? }

  function Node(p: PC): nat { if HasNode(p) then p.n else 0 }

  predicate PcOk(s: State, p: PC) {
    && (HasNode(p) ==> p.n < |s.refs|)
    && (p.GetRefs? ==> NodeOk(s, p.head))
    && (p.PushLink? || p.PushRef? || p.PushCas? || p.PushUndo? || p.GetDrop? ==> NodeOk(s, p.h))
    && (p.PushLoad? || p.PushLink? || p.PushRef? || p.PushCas? || p.PushUndo? ==> ReturnOk(s, p.ret))
    && (p.GetInc? ==> 0 <= p.r < UINT32)
    && (p.GetCas? ==> NodeOk(s, p.nx))
  }

  /** The references of the state are to existing nodes, and the counters are 32-bit words.
      The thread count is bounded by the 31 bits the reference count has. */
  ghost predicate WellFormed(s: State) {
    && |s.next| == |s.refs| == |s.place|
    && |s.pc| + 1 < SHOULD_BE_ON_FREELIST
    && NodeOk(s, s.head)
    && (forall n :: 0 <= n < |s.refs| ==> 0 <= s.refs[n] < UINT32)
    && (forall n :: 0 <= n < |s.refs| ==> NodeOk(s, s.next[n]))
    && (forall t :: 0 <= t < |s.pc| ==> PcOk(s, s.pc[t]))
  }

  ghost predicate Enabled(s: State, a: Action) {
    WellFormed(s) &&
    match a
    case StartAdd(t, n) => t < |s.pc| && s.pc[t] == Idle && n < |s.refs| && s.place[n] == Client
    case StartGet(t) => t < |s.pc| && s.pc[t] == Idle
    case Create => true
    case Run(t) => t < |s.pc| && s.pc[t] != Idle
  }

  ghost function Next(s: State, a: Action): State
    requires Enabled(s, a)
  {
    match a
    case StartAdd(t, n) => s.(pc := s.pc[t := Add(n)], place := s.place[n := Charged(t, Adding)])
    case StartGet(t) => s.(pc := s.pc[t := GetLoad])
    case Create => s.(refs := s.refs + [0], next := s.next + [None], place := s.place + [Client])
    case Run(t) => Step(s, t)
  }

  /** One atomic operation of thread t, as the code performs it. */
  ghost function Step(s: State, t: nat): State
    requires WellFormed(s) && t < |s.pc| && s.pc[t] != Idle
  {
    match s.pc[t]
    case Add(n) => FlagForList(s, t, n)
    case PushLoad(n, ret) => s.(pc := s.pc[t := PushLink(n, s.head, ret)])
    case PushLink(n, h, ret) => s.(next := s.next[n := h], pc := s.pc[t := PushRef(n, h, ret)])
    case PushRef(n, h, ret) => s.(refs := s.refs[n := 1], pc := s.pc[t := PushCas(n, h, ret)])
    case PushCas(n, h, ret) => SwingHead(s, t, n, h, ret)
    case PushUndo(n, h, ret) => GiveUpPush(s, t, n, h, ret)
    case GetLoad => s.(pc := s.pc[t := GetRefs(s.head)])
    case GetRefs(h) => s.(pc := s.pc[t := if h.None? then Idle else GetInc(h.value, s.refs[h.value])])
    case GetInc(n, r) => Acquire(s, t, n, r)
    case GetNext(n) => s.(pc := s.pc[t := GetCas(n, s.next[n])])
    case GetCas(n, nx) => PopHead(s, t, n, nx)
    case GetAssert(n) => s.(pc := s.pc[t := GetTake(n)])
    case GetTake(n) =>
      s.(refs := s.refs[n := (s.refs[n] - 2) % UINT32], pc := s.pc[t := Idle], place := s.place[n := Client])
    case GetDrop(n, h) => Release(s, t, n, h)
  }

  function FlagForList(s: State, t: nat, n: nat): State
    requires t < |s.pc| && n < |s.refs| == |s.place|
  {
    var s' := s.(refs := s.refs[n := (s.refs[n] + SHOULD_BE_ON_FREELIST) % UINT32]);
    if s.refs[n] == 0
    then s'.(pc := s.pc[t := PushLoad(n, Leave)], place := s.place[n := Charged(t, Pushing)])
    else s'.(pc := s.pc[t := Idle], place := s.place[n := Waiting])
  }

  function SwingHead(s: State, t: nat, n: nat, h: Option<nat>, ret: Return): State
    requires t < |s.pc| && n < |s.place|
  {
    if s.head == h
    then s.(head := Some(n), pc := s.pc[t := Leaving(ret)], list := [n] + s.list, place := s.place[n := Listed])
    else s.(pc := s.pc[t := PushUndo(n, s.head, ret)])
  }

  function GiveUpPush(s: State, t: nat, n: nat, h: Option<nat>, ret: Return): State
    requires t < |s.pc| && n < |s.refs| == |s.place|
  {
    var s' := s.(refs := s.refs[n := (s.refs[n] + SHOULD_BE_ON_FREELIST - 1) % UINT32]);
    if s.refs[n] == 1
    then s'.(pc := s.pc[t := PushLink(n, h, ret)])
    else s'.(pc := s.pc[t := Leaving(ret)], place := s.place[n := Waiting])
  }

  function Acquire(s: State, t: nat, n: nat, r: int): State
    requires t < |s.pc| && n < |s.refs|
  {
    if r % SHOULD_BE_ON_FREELIST == 0 || s.refs[n] != r
    then s.(pc := s.pc[t := GetLoad])
    else s.(refs := s.refs[n := (r + 1) % UINT32], pc := s.pc[t := GetNext(n)])
  }

  function PopHead(s: State, t: nat, n: nat, nx: Option<nat>): State
    requires t < |s.pc| && n < |s.place|
  {
    if s.head == Some(n)
    then s.(head := nx, pc := s.pc[t := GetAssert(n)],
            list := if s.list == [] then [] else s.list[1..], place := s.place[n := Charged(t, Popping)])
    else s.(pc := s.pc[t := GetDrop(n, s.head)])
  }

  function Release(s: State, t: nat, n: nat, h: Option<nat>): State
    requires t < |s.pc| && n < |s.refs| == |s.place|
  {
    var s' := s.(refs := s.refs[n := (s.refs[n] - 1) % UINT32]);
    if s.refs[n] == SHOULD_BE_ON_FREELIST + 1
    then s'.(pc := s.pc[t := PushLoad(n, Resume(h))], place := s.place[n := Charged(t, Pushing)])
    else s'.(pc := s.pc[t := GetRefs(h)])
  }

  // ----- the invariant -----

  /** A thread holds a reference to its node from its successful increment until it gives it back. */
  predicate Holding(p: PC) { p.GetNext? || p.GetCas? || p.GetAssert? || p.GetTake? || p.GetDrop? }

  function Holds(p: PC, n: nat): int { if Holding(p) && p.n == n then 1 else 0 }

  ghost function HoldsFn(n: nat): PC -> int { p => Holds(p, n) }

  ghost function Holders(pc: seq<PC>, n: nat): int { Sum(pc, HoldsFn(n)) }

  function RoleOf(p: PC): Option<Role> {
    if p.Add? then Some(Adding)
    else if p.PushLoad? || p.PushLink? || p.PushRef? || p.PushCas? || p.PushUndo? then Some(Pushing)
    else if p.GetAssert? || p.GetTake? then Some(Popping)
    else None
  }

  /** The pusher has not yet handed out the list's own reference. */
  predicate Unreferenced(p: PC) { p.PushLoad? || p.PushLink? || p.PushRef? }

  /** The exact contents of the reference word of a node in a given place with h holders:
      the flag, the list's reference, and one for every holder. */
  ghost predicate WordOk(word: int, place: Place, pc: seq<PC>, h: int) {
    match place
    case Client => word == h
    case Waiting => word == SHOULD_BE_ON_FREELIST + h && h >= 1
    case Listed => word == 1 + h
    case Charged(t, Adding) => word == h
    case Charged(t, Popping) => word == 1 + h
    case Charged(t, Pushing) =>
      t < |pc| && if Unreferenced(pc[t]) then word == SHOULD_BE_ON_FREELIST && h == 0 else word == 1 + h
  }

  ghost predicate RefsOk(s: State)
    requires |s.refs| == |s.place|
  {
    forall n :: 0 <= n < |s.refs| ==> WordOk(s.refs[n], s.place[n], s.pc, Holders(s.pc, n))
  }

  /** What a thread remembers about the next pointer of its node is still true. */
  predicate Remembers(next: seq<Option<nat>>, p: PC) {
    && (p.PushRef? && p.n < |next| ==> next[p.n] == p.h)
    && (p.PushCas? && p.n < |next| ==> next[p.n] == p.h)
    && (p.GetCas? && p.n < |next| ==> next[p.n] == p.nx)
  }

  ghost predicate NextOk(s: State) { forall t :: 0 <= t < |s.pc| ==> Remembers(s.next, s.pc[t]) }

  /** The nodes of `list`, in that order, are what following next pointers from `head` visits. */
  predicate Chain(head: Option<nat>, next: seq<Option<nat>>, list: seq<nat>)
    decreases list
  {
    if list == [] then head == None
    else head == Some(list[0]) && list[0] < |next| && Chain(next[list[0]], next, list[1..])
  }

  ghost predicate NoRepeats(list: seq<nat>) { forall i, j :: 0 <= i < j < |list| ==> list[i] != list[j] }

  /** The list is the chain from the head, without repetition, and holds the listed nodes. */
  ghost predicate ListOk(s: State) {
    && Chain(s.head, s.next, s.list)
    && NoRepeats(s.list)
    && (forall n :: 0 <= n < |s.place| ==> (s.place[n] == Listed <==> n in s.list))
  }

  /** A thread in charge of a node and the place of the node name each other. */
  ghost predicate ChargeOk(s: State) {
    && (forall t :: 0 <= t < |s.pc| && RoleOf(s.pc[t]).Some? ==>
          Node(s.pc[t]) < |s.place| && s.place[Node(s.pc[t])] == Charged(t, RoleOf(s.pc[t]).value))
    && (forall n :: 0 <= n < |s.place| && s.place[n].Charged? ==>
          s.place[n].t < |s.pc| && Node(s.pc[s.place[n].t]) == n &&
          RoleOf(s.pc[s.place[n].t]) == Some(s.place[n].role))
  }

  ghost predicate Inv(s: State) {
    WellFormed(s) && ListOk(s) && ChargeOk(s) && RefsOk(s) && NextOk(s)
  }

  ghost predicate Init(s: State) {
    && s.head == None && s.list == []
    && |s.next| == |s.refs| == |s.place|
    && |s.pc| + 1 < SHOULD_BE_ON_FREELIST
    && (forall n :: 0 <= n < |s.refs| ==> s.refs[n] == 0 && s.next[n] == None && s.place[n] == Client)
    && (forall t :: 0 <= t < |s.pc| ==> s.pc[t] == Idle)
  }

  lemma InitInv(s: State)
    requires Init(s)
    ensures Inv(s)
  {
    forall n | 0 <= n < |s.refs| ensures Holders(s.pc, n) == 0 { SumZero(s.pc, HoldsFn(n)); }
  }

  // ----- every step keeps it -----

  lemma HoldersStep(pc: seq<PC>, t: nat, p: PC, n: nat)
    requires t < |pc|
    ensures Holders(pc[t := p], n) == Holders(pc, n) - Holds(pc[t], n) + Holds(p, n)
    ensures Holds(pc[t], n) <= Holders(pc, n) <= |pc|
    ensures Holds(p, n) <= Holders(pc[t := p], n) <= |pc|
  {
    var f := HoldsFn(n);
    SumUpdate(pc, f, t, p);
    SumAtLeast(pc, f, t);
    SumAtLeast(pc[t := p], f, t);
    SumAtMost(pc, f, 1);
    SumAtMost(pc[t := p], f, 1);
  }

  /** A step of thread t that changes at most the word, the next pointer and the place of n. */
  ghost predicate Local(s: State, s': State, t: nat, n: nat) {
    && t < |s.pc| == |s'.pc| && n < |s.refs| == |s'.refs| == |s.next| == |s'.next| == |s.place| == |s'.place|
    && s'.pc == s.pc[t := s'.pc[t]]
    && s'.refs == s.refs[n := s'.refs[n]]
    && s'.next == s.next[n := s'.next[n]]
    && s'.place == s.place[n := s'.place[n]]
    // before and after, t is in charge of n or of nothing, and holds n or nothing
    && (RoleOf(s.pc[t]).Some? || Holding(s.pc[t]) ==> Node(s.pc[t]) == n)
    && (RoleOf(s'.pc[t]).Some? || Holding(s'.pc[t]) ==> Node(s'.pc[t]) == n)
  }

  lemma KeepRefs(s: State, s': State, t: nat, n: nat)
    requires Inv(s) && Local(s, s', t, n)
    requires WordOk(s'.refs[n], s'.place[n], s'.pc, Holders(s'.pc, n))
    ensures RefsOk(s')
  {
    forall m | 0 <= m < |s'.refs|
      ensures WordOk(s'.refs[m], s'.place[m], s'.pc, Holders(s'.pc, m))
    {
      if m != n {
        HoldersStep(s.pc, t, s'.pc[t], m);
        assert WordOk(s.refs[m], s.place[m], s.pc, Holders(s.pc, m));
        if s.place[m].Charged? { assert s.place[m].t != t; }
      }
    }
  }

  lemma KeepCharge(s: State, s': State, t: nat, n: nat)
    requires Inv(s) && Local(s, s', t, n)
    requires s.place[n].Charged? ==> s.place[n].t == t || s'.place[n] == s.place[n]
    requires RoleOf(s'.pc[t]).Some? ==> s'.place[n] == Charged(t, RoleOf(s'.pc[t]).value)
    requires s'.place[n].Charged? && s'.place[n].t == t ==> RoleOf(s'.pc[t]) == Some(s'.place[n].role)
    requires s'.place[n].Charged? && s'.place[n].t != t ==> s'.place[n] == s.place[n]
    ensures ChargeOk(s')
  {
  }

  /** A next pointer changes only with no holder, in the hands of the only thread that pushes it. */
  lemma KeepNext(s: State, s': State, t: nat, n: nat)
    requires Inv(s) && Local(s, s', t, n)
    requires Remembers(s'.next, s'.pc[t])
    requires s'.next[n] != s.next[n] ==> s.place[n] == Charged(t, Pushing) && Holders(s.pc, n) == 0
    ensures NextOk(s')
  {
    forall u | 0 <= u < |s'.pc| ensures Remembers(s'.next, s'.pc[u]) {
      if u != t {
        assert Remembers(s.next, s.pc[u]);
        HoldersStep(s.pc, u, s.pc[u], n);
        if s'.next[n] != s.next[n] && RoleOf(s.pc[u]) == Some(Pushing) {
          assert Node(s.pc[u]) != n;
        }
      }
    }
  }

  lemma {:induction false} ChainFrame(head: Option<nat>, next: seq<Option<nat>>, list: seq<nat>, n: nat, x: Option<nat>)
    requires Chain(head, next, list) && n !in list && n < |next|
    ensures Chain(head, next[n := x], list)
    decreases list
  {
    if list != [] { ChainFrame(next[list[0]], next, list[1..], n, x); }
  }

  lemma KeepList(s: State, s': State, t: nat, n: nat)
    requires Inv(s) && Local(s, s', t, n)
    requires s'.list == s.list && s'.head == s.head
    requires s'.next[n] != s.next[n] ==> s.place[n] != Listed
    requires s'.place[n] != s.place[n] ==> s.place[n] != Listed && s'.place[n] != Listed
    ensures ListOk(s')
  {
    if s'.next[n] != s.next[n] {
      ChainFrame(s.head, s.next, s.list, n, s'.next[n]);
    } else {
      assert s'.next == s.next;
    }
  }

  /** What is left to show of a step that neither pushes onto nor pops from the list. */
  ghost predicate StepOk(s: State, s': State, t: nat, n: nat)
    requires Local(s, s', t, n)
  {
    && PcOk(s', s'.pc[t]) && 0 <= s'.refs[n] < UINT32 && NodeOk(s', s'.next[n])
    && (s'.next[n] != s.next[n] ==> s.place[n] == Charged(t, Pushing) && Holders(s.pc, n) == 0)
    && Remembers(s'.next, s'.pc[t])
    && WordOk(s'.refs[n], s'.place[n], s'.pc, Holders(s'.pc, n))
    && ChargeLocal(s, s', t, n)
  }

  ghost predicate ChargeLocal(s: State, s': State, t: nat, n: nat)
    requires Local(s, s', t, n)
  {
    && (s.place[n].Charged? ==> s.place[n].t == t || s'.place[n] == s.place[n])
    && (RoleOf(s'.pc[t]).Some? ==> s'.place[n] == Charged(t, RoleOf(s'.pc[t]).value))
    && (s'.place[n].Charged? && s'.place[n].t == t ==> RoleOf(s'.pc[t]) == Some(s'.place[n].role))
    && (s'.place[n].Charged? && s'.place[n].t != t ==> s'.place[n] == s.place[n])
  }

  lemma KeepInv(s: State, s': State, t: nat, n: nat)
    requires Inv(s) && Local(s, s', t, n) && StepOk(s, s', t, n)
    requires NodeOk(s', s'.head) && ListOk(s')
    ensures Inv(s')
  {
    KeepRefs(s, s', t, n);
    KeepCharge(s, s', t, n);
    KeepNext(s, s', t, n);
  }

  lemma AddOk(s: State, t: nat, n: nat)
    requires Inv(s) && t < |s.pc| && s.pc[t] == Add(n)
    ensures Local(s, FlagForList(s, t, n), t, n) && StepOk(s, FlagForList(s, t, n), t, n)
  {
    hide ListOk, NextOk;
    var s' := FlagForList(s, t, n);
    HoldersStep(s.pc, t, s'.pc[t], n);
    assert WordOk(s.refs[n], s.place[n], s.pc, Holders(s.pc, n));
  }

  lemma AddKeeps(s: State, t: nat, n: nat)
    requires Inv(s) && t < |s.pc| && s.pc[t] == Add(n)
    ensures Inv(FlagForList(s, t, n))
  {
    AddOk(s, t, n);
    KeepList(s, FlagForList(s, t, n), t, n);
    KeepInv(s, FlagForList(s, t, n), t, n);
  }

  lemma GiveUpPushOk(s: State, t: nat, n: nat, h: Option<nat>, ret: Return)
    requires Inv(s) && t < |s.pc| && s.pc[t] == PushUndo(n, h, ret)
    ensures Local(s, GiveUpPush(s, t, n, h, ret), t, n) && StepOk(s, GiveUpPush(s, t, n, h, ret), t, n)
  {
    hide ListOk, NextOk;
    var s' := GiveUpPush(s, t, n, h, ret);
    HoldersStep(s.pc, t, s'.pc[t], n);
    assert WordOk(s.refs[n], s.place[n], s.pc, Holders(s.pc, n));
  }

  lemma GiveUpPushKeeps(s: State, t: nat, n: nat, h: Option<nat>, ret: Return)
    requires Inv(s) && t < |s.pc| && s.pc[t] == PushUndo(n, h, ret)
    ensures Inv(GiveUpPush(s, t, n, h, ret))
  {
    GiveUpPushOk(s, t, n, h, ret);
    KeepList(s, GiveUpPush(s, t, n, h, ret), t, n);
    KeepInv(s, GiveUpPush(s, t, n, h, ret), t, n);
  }

  lemma PushOk(s: State, t: nat)
    requires Inv(s) && t < |s.pc| && Unreferenced(s.pc[t])
    ensures Local(s, Step(s, t), t, s.pc[t].n) && StepOk(s, Step(s, t), t, s.pc[t].n)
  {
    var n := s.pc[t].n;
    var s' := Step(s, t);
    HoldersStep(s.pc, t, s'.pc[t], n);
    assert WordOk(s.refs[n], s.place[n], s.pc, Holders(s.pc, n));
  }

  lemma PushKeeps(s: State, t: nat)
    requires Inv(s) && t < |s.pc| && Unreferenced(s.pc[t])
    ensures Inv(Step(s, t))
  {
    PushOk(s, t);
    KeepList(s, Step(s, t), t, s.pc[t].n);
    KeepInv(s, Step(s, t), t, s.pc[t].n);
  }

  lemma PushedList(s: State, s': State, n: nat)
    requires |s.next| == |s.place| && ListOk(s) && n < |s.place| && s.place[n] != Listed
    requires s.next[n] == s.head
    requires s'.next == s.next && s'.place == s.place[n := Listed]
    requires s'.head == Some(n) && s'.list == [n] + s.list
    ensures ListOk(s')
  {
    assert s'.list[1..] == s.list;
  }

  lemma PoppedList(s: State, s': State, n: nat)
    requires |s.next| == |s.place| && ListOk(s) && s.head == Some(n)
    requires n < |s.next|
    requires s'.next == s.next && s'.head == s.next[n] && s.list != [] && s'.list == s.list[1..]
    requires |s'.place| == |s.place| && s'.place == s.place[n := s'.place[n]] && s'.place[n] != Listed
    ensures ListOk(s')
  {
    assert s.list == [n] + s'.list;
    forall m | m in s'.list ensures m != n {
      var j :| 0 <= j < |s'.list| && s'.list[j] == m;
      assert s.list[j + 1] == m;
    }
  }

  lemma SwingHeadOk(s: State, t: nat, n: nat, h: Option<nat>, ret: Return)
    requires Inv(s) && t < |s.pc| && s.pc[t] == PushCas(n, h, ret)
    ensures Local(s, SwingHead(s, t, n, h, ret), t, n) && StepOk(s, SwingHead(s, t, n, h, ret), t, n)
  {
    hide ListOk, NextOk;
    var s' := SwingHead(s, t, n, h, ret);
    HoldersStep(s.pc, t, s'.pc[t], n);
    assert WordOk(s.refs[n], s.place[n], s.pc, Holders(s.pc, n));
  }

  lemma SwingHeadKeeps(s: State, t: nat, n: nat, h: Option<nat>, ret: Return)
    requires Inv(s) && t < |s.pc| && s.pc[t] == PushCas(n, h, ret)
    ensures Inv(SwingHead(s, t, n, h, ret))
  {
    SwingHeadOk(s, t, n, h, ret);
    hide Chain, NoRepeats, RefsOk, WordOk, Holders, ChargeLocal;
    var s' := SwingHead(s, t, n, h, ret);
    if s.head == h {
      PushedList(s, s', n);
    } else {
      KeepList(s, s', t, n);
    }
    KeepInv(s, s', t, n);
  }

  /** Moves between program points that are in charge of nothing and hold nothing. */
  lemma PcOnlyKeeps(s: State, t: nat, p: PC)
    requires Inv(s) && t < |s.pc| && RoleOf(s.pc[t]).None? && !Holding(s.pc[t])
    requires PcOk(s, p) && RoleOf(p).None? && !Holding(p)
    ensures Inv(s.(pc := s.pc[t := p]))
  {
    forall m | 0 <= m < |s.refs| ensures Holders(s.pc[t := p], m) == Holders(s.pc, m) {
      HoldersStep(s.pc, t, p, m);
    }
    assert forall m :: 0 <= m < |s.refs| && s.place[m].Charged? ==> s.place[m].t != t;
  }

  /** A count above zero can be raised: it belongs to a place that tolerates one more holder. */
  lemma AcquireOk(s: State, t: nat, n: nat, r: int)
    requires Inv(s) && t < |s.pc| && s.pc[t] == GetInc(n, r)
    ensures Local(s, Acquire(s, t, n, r), t, n) && StepOk(s, Acquire(s, t, n, r), t, n)
  {
    hide ListOk, NextOk;
    var s' := Acquire(s, t, n, r);
    HoldersStep(s.pc, t, s'.pc[t], n);
    assert WordOk(s.refs[n], s.place[n], s.pc, Holders(s.pc, n));
  }

  lemma AcquireKeeps(s: State, t: nat, n: nat, r: int)
    requires Inv(s) && t < |s.pc| && s.pc[t] == GetInc(n, r)
    ensures Inv(Acquire(s, t, n, r))
  {
    AcquireOk(s, t, n, r);
    KeepList(s, Acquire(s, t, n, r), t, n);
    KeepInv(s, Acquire(s, t, n, r), t, n);
  }

  lemma PopHeadKeeps(s: State, t: nat, n: nat, nx: Option<nat>)
    requires Inv(s) && t < |s.pc| && s.pc[t] == GetCas(n, nx)
    ensures Inv(PopHead(s, t, n, nx))
  {
    var s' := PopHead(s, t, n, nx);
    HoldersStep(s.pc, t, s'.pc[t], n);
    assert WordOk(s.refs[n], s.place[n], s.pc, Holders(s.pc, n));
    if s.head == Some(n) {
      assert n in s.list;
      PoppedList(s, s', n);
    } else {
      KeepList(s, s', t, n);
    }
    KeepInv(s, s', t, n);
  }

  lemma GetRestOk(s: State, t: nat)
    requires Inv(s) && t < |s.pc|
    requires s.pc[t].GetNext? || s.pc[t].GetAssert? || s.pc[t].GetTake?
    ensures Local(s, Step(s, t), t, s.pc[t].n) && StepOk(s, Step(s, t), t, s.pc[t].n)
  {
    var n := s.pc[t].n;
    var s' := Step(s, t);
    HoldersStep(s.pc, t, s'.pc[t], n);
    assert WordOk(s.refs[n], s.place[n], s.pc, Holders(s.pc, n));
  }

  lemma GetRestKeeps(s: State, t: nat)
    requires Inv(s) && t < |s.pc|
    requires s.pc[t].GetNext? || s.pc[t].GetAssert? || s.pc[t].GetTake?
    ensures Inv(Step(s, t))
  {
    GetRestOk(s, t);
    KeepList(s, Step(s, t), t, s.pc[t].n);
    KeepInv(s, Step(s, t), t, s.pc[t].n);
  }

  lemma ReleaseOk(s: State, t: nat, n: nat, h: Option<nat>)
    requires Inv(s) && t < |s.pc| && s.pc[t] == GetDrop(n, h)
    ensures Local(s, Release(s, t, n, h), t, n) && StepOk(s, Release(s, t, n, h), t, n)
    ensures s.refs[n] == SHOULD_BE_ON_FREELIST + 1 ==> s.place[n] == Waiting
  {
    var s' := Release(s, t, n, h);
    HoldersStep(s.pc, t, s'.pc[t], n);
    assert WordOk(s.refs[n], s.place[n], s.pc, Holders(s.pc, n));
  }

  lemma ReleaseKeeps(s: State, t: nat, n: nat, h: Option<nat>)
    requires Inv(s) && t < |s.pc| && s.pc[t] == GetDrop(n, h)
    ensures Inv(Release(s, t, n, h))
  {
    ReleaseOk(s, t, n, h);
    KeepList(s, Release(s, t, n, h), t, n);
    KeepInv(s, Release(s, t, n, h), t, n);
  }

  lemma StepInv(s: State, t: nat)
    requires Inv(s) && t < |s.pc| && s.pc[t] != Idle
    ensures Inv(Step(s, t))
  {
    match s.pc[t] {
      case Add(n) => AddKeeps(s, t, n);
      case PushLoad(_, _) => PushKeeps(s, t);
      case PushLink(_, _, _) => PushKeeps(s, t);
      case PushRef(_, _, _) => PushKeeps(s, t);
      case PushCas(n, h, ret) => SwingHeadKeeps(s, t, n, h, ret);
      case PushUndo(n, h, ret) => GiveUpPushKeeps(s, t, n, h, ret);
      case GetLoad => PcOnlyKeeps(s, t, GetRefs(s.head));
      case GetRefs(h) => PcOnlyKeeps(s, t, if h.None? then Idle else GetInc(h.value, s.refs[h.value]));
      case GetInc(n, r) => AcquireKeeps(s, t, n, r);
      case GetCas(n, nx) => PopHeadKeeps(s, t, n, nx);
      case GetDrop(n, h) => ReleaseKeeps(s, t, n, h);
      case _ => GetRestKeeps(s, t);
    }
  }

  lemma {:induction false} ChainGrows(head: Option<nat>, next: seq<Option<nat>>, list: seq<nat>)
    requires Chain(head, next, list)
    ensures Chain(head, next + [None], list)
    decreases list
  {
    if list != [] { ChainGrows(next[list[0]], next, list[1..]); }
  }

  lemma {:induction false} ChainInRange(head: Option<nat>, next: seq<Option<nat>>, list: seq<nat>)
    requires Chain(head, next, list)
    ensures forall n :: n in list ==> n < |next|
    decreases list
  {
    if list != [] {
      ChainInRange(next[list[0]], next, list[1..]);
      assert forall n :: n in list ==> n == list[0] || n in list[1..];
    }
  }

  lemma CreateWords(s: State)
    requires Inv(s)
    ensures RefsOk(Next(s, Create))
  {
    hide ListOk, NextOk, ChargeOk;
    var s' := Next(s, Create);
    var n := |s.refs|;
    SumZero(s.pc, HoldsFn(n));
    forall m | 0 <= m < |s'.refs| ensures WordOk(s'.refs[m], s'.place[m], s'.pc, Holders(s'.pc, m)) {
      if m < n { assert WordOk(s.refs[m], s.place[m], s.pc, Holders(s.pc, m)); }
    }
  }

  lemma CreateKeeps(s: State)
    requires Inv(s)
    ensures Inv(Next(s, Create))
  {
    hide RefsOk;
    CreateWords(s);
    ChainGrows(s.head, s.next, s.list);
    ChainInRange(s.head, s.next, s.list);
  }

  lemma StartAddKeeps(s: State, t: nat, n: nat)
    requires Enabled(s, StartAdd(t, n)) && Inv(s)
    ensures Inv(Next(s, StartAdd(t, n)))
  {
    var s' := Next(s, StartAdd(t, n));
    HoldersStep(s.pc, t, s'.pc[t], n);
    assert WordOk(s.refs[n], s.place[n], s.pc, Holders(s.pc, n));
    assert Local(s, s', t, n) && ChargeLocal(s, s', t, n);
    KeepList(s, s', t, n);
    KeepInv(s, s', t, n);
  }

  /** Every action of every thread keeps the invariant. */
  lemma NextInv(s: State, a: Action)
    requires Enabled(s, a) && Inv(s)
    ensures Inv(Next(s, a))
  {
    match a {
      case StartAdd(t, n) => StartAddKeeps(s, t, n);
      case StartGet(t) => PcOnlyKeeps(s, t, GetLoad);
      case Create => CreateKeeps(s);
      case Run(t) => StepInv(s, t);
    }
  }

  // ----- what every run guarantees -----

  ghost predicate Moves(s: State, a: Action, s': State) { Enabled(s, a) && s' == Next(s, a) }

  ghost predicate Leads(s: State, s': State) { exists a :: Moves(s, a, s') }

  ghost predicate IsRun(run: seq<State>) {
    && run != [] && Init(run[0])
    && (forall i :: 0 <= i < |run| - 1 ==> Leads(run[i], run[i + 1]))
  }

  /** The states some interleaving of the threads leads to. */
  ghost predicate Reachable(s: State) { exists run :: IsRun(run) && run[|run| - 1] == s }

  lemma LeadsInv(s: State, s': State)
    requires Leads(s, s') && Inv(s)
    ensures Inv(s')
  {
    var a :| Moves(s, a, s');
    NextInv(s, a);
  }

  lemma {:induction false} RunInv(run: seq<State>, i: nat)
    requires IsRun(run) && i < |run|
    ensures Inv(run[i])
  {
    if i == 0 {
      InitInv(run[0]);
    } else {
      RunInv(run, i - 1);
      assert Leads(run[i - 1], run[i - 1 + 1]);
      LeadsInv(run[i - 1], run[i]);
    }
  }

  lemma ReachableInv(s: State)
    requires Reachable(s)
    ensures Inv(s)
  {
    var run :| IsRun(run) && run[|run| - 1] == s;
    RunInv(run, |run| - 1);
  }

  lemma WordFacts(s: State, n: nat)
    requires Inv(s) && n < |s.refs|
    ensures WordOk(s.refs[n], s.place[n], s.pc, Holders(s.pc, n))
    ensures 0 <= Holders(s.pc, n) <= |s.pc| < SHOULD_BE_ON_FREELIST - 1
  {
    SumAtMost(s.pc, HoldsFn(n), 1);
    SumNonNegative(s.pc, HoldsFn(n));
  }

  ghost predicate InCharge(s: State, t: nat, n: nat) {
    t < |s.pc| && RoleOf(s.pc[t]).Some? && Node(s.pc[t]) == n
  }

  predicate Flagged(s: State, n: nat) { n < |s.refs| && s.refs[n] >= SHOULD_BE_ON_FREELIST }

  /** In every reachable state of every interleaving: the list is what the head leads to, each node
      once; at most one thread is in charge of a node, and then the node is not on the list; and
      the word of a node on the list has the flag down and counts the list and the holders. */
  lemma ListedOnceOrInOnesCharge(s: State, n: nat)
    requires Reachable(s) && n < |s.refs|
    ensures Chain(s.head, s.next, s.list) && NoRepeats(s.list)
    ensures forall t, u :: InCharge(s, t, n) && InCharge(s, u, n) ==> t == u
    ensures forall t :: InCharge(s, t, n) ==> n !in s.list
    ensures n in s.list ==> s.refs[n] == 1 + Holders(s.pc, n) && !Flagged(s, n)
  {
    ReachableInv(s);
    WordFacts(s, n);
  }

  /** A node that is neither on the list nor in a thread's charge is either with its client, counting
      just its holders, or flagged, and then someone holds it and will find it on letting go. */
  lemma OffListNodeIsOwnedOrWaiting(s: State, n: nat)
    requires Reachable(s) && n < |s.refs| && n !in s.list && forall t :: !InCharge(s, t, n)
    ensures Flagged(s, n) ==> s.refs[n] == SHOULD_BE_ON_FREELIST + Holders(s.pc, n) && Holders(s.pc, n) >= 1
    ensures !Flagged(s, n) ==> s.refs[n] == Holders(s.pc, n)
    ensures n < |s.place| && (!Flagged(s, n) <==> s.place[n] == Client)
  {
    assert |s.place| == |s.refs| && s.place[n] != Listed by { ReachableInv(s); }
    assert !s.place[n].Charged? by {
      ReachableInv(s);
      if s.place[n].Charged? { assert InCharge(s, s.place[n].t, n); }
    }
    assert WordOk(s.refs[n], s.place[n], s.pc, Holders(s.pc, n)) && 0 <= Holders(s.pc, n) < SHOULD_BE_ON_FREELIST by {
      ReachableInv(s);
      WordFacts(s, n);
    }
  }

  /** A thread about to store a node's next pointer has it to itself. */
  lemma LinkedIsUnheld(s: State, t: nat)
    requires Inv(s) && t < |s.pc| && s.pc[t].PushLink?
    ensures Holders(s.pc, s.pc[t].n) == 0
  {
    hide ListOk, NextOk;
    WordFacts(s, s.pc[t].n);
  }

  /** `try_get` may rely on what it read: while a thread holds a node, no step of any thread
      changes the node's next pointer. */
  lemma HeldNextIsStable(s: State, a: Action, t: nat)
    requires Reachable(s) && Enabled(s, a) && t < |s.pc| && Holding(s.pc[t])
    ensures var n := Node(s.pc[t]); n < |s.next| && n < |Next(s, a).next| && Next(s, a).next[n] == s.next[n]
  {
    hide ListOk, NextOk, ChargeOk, RefsOk, WordOk;
    ReachableInv(s);
    if a.Run? && s.pc[a.t].PushLink? {
      var m := s.pc[a.t].n;
      LinkedIsUnheld(s, a.t);
      HoldersStep(s.pc, t, s.pc[t], m);
    }
  }

  /** The assertion after a successful pop holds: the flag of the popped node is down. */
  lemma PoppedNodeIsNotFlagged(s: State, t: nat)
    requires Reachable(s) && t < |s.pc| && s.pc[t].GetAssert?
    ensures s.pc[t].n < |s.refs| && !Flagged(s, s.pc[t].n)
  {
    ReachableInv(s);
    WordFacts(s, s.pc[t].n);
  }

  /** ABA: the node may have left the list and come back since the thread read its next pointer, yet
      a pop that succeeds takes exactly the first node and leaves the rest of the list as it was. */
  lemma PopTakesTheHead(s: State, t: nat)
    requires Reachable(s) && t < |s.pc| && s.pc[t].GetCas? && s.head == Some(s.pc[t].n)
    ensures s.list != [] && s.list[0] == s.pc[t].n
    ensures WellFormed(s) && Chain(Step(s, t).head, s.next, s.list[1..])
  {
    assert Chain(s.head, s.next, s.list) && WellFormed(s) by { ReachableInv(s); }
    assert Remembers(s.next, s.pc[t]) by { ReachableInv(s); }
  }

  /** No node is lost: once no operation is under way, every node is with a client or on the list,
      and its word is 0 or 1 accordingly. */
  lemma NothingIsLost(s: State, n: nat)
    requires Reachable(s) && n < |s.refs|
    requires forall t :: 0 <= t < |s.pc| ==> s.pc[t] == Idle
    ensures s.refs[n] == if n in s.list then 1 else 0
    ensures n < |s.place| && (n in s.list <==> s.place[n] != Client)
  {
    assert Holders(s.pc, n) == 0 by { SumZero(s.pc, HoldsFn(n)); }
    assert WordOk(s.refs[n], s.place[n], s.pc, 0) && (s.place[n] == Listed <==> n in s.list) by {
      ReachableInv(s);
      WordFacts(s, n);
    }
    assert !s.place[n].Charged? by { ReachableInv(s); }
  }

  // ----- the list as an object updated in place -----

  /** The shared words of the list and of its nodes, and the threads at work on them.  Each method
      performs the next atomic operation of one thread inside the source function it is named after. */
  class FreeList {
    var freeListHead: Option<nat>
    var freeListRefs: seq<int>
    var freeListNext: seq<Option<nat>>
    var threads: seq<PC>
    ghost var list: seq<nat>
    ghost var place: seq<Place>

    ghost function Snapshot(): State
      reads this
    {
      State(freeListHead, freeListRefs, freeListNext, threads, list, place)
    }

    ghost predicate Valid()
      reads this
    {
      Inv(Snapshot())
    }

    constructor (threadCount: nat)
      requires threadCount + 1 < SHOULD_BE_ON_FREELIST
      ensures Init(Snapshot()) && Valid() && |threads| == threadCount && freeListRefs == []
    {
      freeListHead, freeListRefs, freeListNext := None, [], [];
      threads := seq(threadCount, _ => Idle);
      list, place := [], [];
      new;
      InitInv(Snapshot());
    }

    /** A client allocates a node. */
    method CreateNode() returns (n: nat)
      requires Valid()
      modifies this
      ensures Snapshot() == Next(old(Snapshot()), Create) && Valid() && n == old(|freeListRefs|)
    {
      NextInv(Snapshot(), Create);
      n := |freeListRefs|;
      freeListRefs, freeListNext := freeListRefs + [0], freeListNext + [None];
      place := place + [Client];
    }

    method CallAdd(t: nat, n: nat)
      requires Valid() && Enabled(Snapshot(), StartAdd(t, n))
      modifies this
      ensures Snapshot() == Next(old(Snapshot()), StartAdd(t, n)) && Valid()
    {
      NextInv(Snapshot(), StartAdd(t, n));
      threads := threads[t := Add(n)];
      place := place[n := Charged(t, Adding)];
    }

    method CallTryGet(t: nat)
      requires Valid() && Enabled(Snapshot(), StartGet(t))
      modifies this
      ensures Snapshot() == Next(old(Snapshot()), StartGet(t)) && Valid()
    {
      NextInv(Snapshot(), StartGet(t));
      threads := threads[t := GetLoad];
    }

    method RunAdd(t: nat)
      requires Valid() && t < |threads| && threads[t].Add?
      modifies this
      ensures Snapshot() == Step(old(Snapshot()), t) && Valid()
    {
      hide ListOk, ChargeOk, RefsOk, NextOk;
      StepInv(Snapshot(), t);
      var n := threads[t].n;
      var was := freeListRefs[n];
      freeListRefs := freeListRefs[n := (was + SHOULD_BE_ON_FREELIST) % UINT32];
      if was == 0 {
        threads := threads[t := PushLoad(n, Leave)];
        place := place[n := Charged(t, Pushing)];
      } else {
        threads := threads[t := Idle];
        place := place[n := Waiting];
      }
    }

    /** add_knowing_refcount_is_zero up to the publication of the node. */
    method RunPushPrepare(t: nat)
      requires Valid() && t < |threads| && Unreferenced(threads[t])
      modifies this
      ensures Snapshot() == Step(old(Snapshot()), t) && Valid()
    {
      hide ListOk, ChargeOk, RefsOk, NextOk;
      StepInv(Snapshot(), t);
      var n := threads[t].n;
      match threads[t] {
        case PushLoad(_, ret) =>
          threads := threads[t := PushLink(n, freeListHead, ret)];
        case PushLink(_, h, ret) =>
          freeListNext := freeListNext[n := h];
          threads := threads[t := PushRef(n, h, ret)];
        case PushRef(_, h, ret) =>
          freeListRefs := freeListRefs[n := 1];
          threads := threads[t := PushCas(n, h, ret)];
      }
    }

    /** The compare-and-swap that publishes the node. */
    method RunPushCas(t: nat)
      requires Valid() && t < |threads| && threads[t].PushCas?
      modifies this
      ensures Snapshot() == Step(old(Snapshot()), t) && Valid()
    {
      hide ListOk, ChargeOk, RefsOk, NextOk;
      StepInv(Snapshot(), t);
      var PushCas(n, h, ret) := threads[t];
      if freeListHead == h {
        freeListHead := Some(n);
        threads := threads[t := Leaving(ret)];
        list, place := [n] + list, place[n := Listed];
      } else {
        threads := threads[t := PushUndo(n, freeListHead, ret)];
      }
    }

    /** After a lost compare-and-swap: try again, or leave it to the last holder. */
    method RunPushUndo(t: nat)
      requires Valid() && t < |threads| && threads[t].PushUndo?
      modifies this
      ensures Snapshot() == Step(old(Snapshot()), t) && Valid()
    {
      hide ListOk, ChargeOk, RefsOk, NextOk;
      StepInv(Snapshot(), t);
      var PushUndo(n, h, ret) := threads[t];
      var was := freeListRefs[n];
      freeListRefs := freeListRefs[n := (was + SHOULD_BE_ON_FREELIST - 1) % UINT32];
      if was == 1 {
        threads := threads[t := PushLink(n, h, ret)];
      } else {
        threads := threads[t := Leaving(ret)];
        place := place[n := Waiting];
      }
    }

    /** The loop of try_get up to the read of the next pointer; `empty` tells that it returns null. */
    method RunTryGetAcquire(t: nat) returns (empty: bool)
      requires Valid() && t < |threads|
      requires threads[t].GetLoad? || threads[t].GetRefs? || threads[t].GetInc? || threads[t].GetNext?
      modifies this
      ensures Snapshot() == Step(old(Snapshot()), t) && Valid()
      ensures empty <==> threads[t] == Idle
      ensures empty ==> old(threads[t]) == GetRefs(None)
    {
      hide ListOk, ChargeOk, RefsOk, NextOk;
      StepInv(Snapshot(), t);
      empty := false;
      match threads[t] {
        case GetLoad => threads := threads[t := GetRefs(freeListHead)];
        case GetRefs(h) =>
          empty := h.None?;
          threads := threads[t := if h.None? then Idle else GetInc(h.value, freeListRefs[h.value])];
        case GetInc(n, r) =>
          if r % SHOULD_BE_ON_FREELIST == 0 || freeListRefs[n] != r {
            threads := threads[t := GetLoad];
          } else {
            freeListRefs := freeListRefs[n := (r + 1) % UINT32];
            threads := threads[t := GetNext(n)];
          }
        case GetNext(n) => threads := threads[t := GetCas(n, freeListNext[n])];
      }
    }

    /** The pop of try_get: swing the head to the next node. */
    method RunTryGetPop(t: nat)
      requires Valid() && t < |threads| && threads[t].GetCas?
      modifies this
      ensures Snapshot() == Step(old(Snapshot()), t) && Valid()
    {
      hide ListOk, ChargeOk, RefsOk, NextOk;
      StepInv(Snapshot(), t);
      var GetCas(n, nx) := threads[t];
      if freeListHead == Some(n) {
        freeListHead := nx;
        threads := threads[t := GetAssert(n)];
        list := if list == [] then [] else list[1..];
        place := place[n := Charged(t, Popping)];
      } else {
        threads := threads[t := GetDrop(n, freeListHead)];
      }
    }

    /** After a lost pop: let go of the node, and put it back if that falls to this thread. */
    method RunTryGetDrop(t: nat)
      requires Valid() && t < |threads| && threads[t].GetDrop?
      modifies this
      ensures Snapshot() == Step(old(Snapshot()), t) && Valid()
    {
      hide ListOk, ChargeOk, RefsOk, NextOk;
      StepInv(Snapshot(), t);
      var GetDrop(n, h) := threads[t];
      var was := freeListRefs[n];
      freeListRefs := freeListRefs[n := (was - 1) % UINT32];
      if was == SHOULD_BE_ON_FREELIST + 1 {
        threads := threads[t := PushLoad(n, Resume(h))];
        place := place[n := Charged(t, Pushing)];
      } else {
        threads := threads[t := GetRefs(h)];
      }
    }

    /** The end of a successful try_get; `result` is the node it returns, now the caller's alone. */
    method RunTryGetReturn(t: nat) returns (result: Option<nat>)
      requires Valid() && t < |threads| && (threads[t].GetAssert? || threads[t].GetTake?)
      modifies this
      ensures Snapshot() == Step(old(Snapshot()), t) && Valid()
      ensures result.Some? <==> threads[t] == Idle
      ensures result.Some? ==> result.value < |place| && place[result.value] == Client
    {
      hide ListOk, ChargeOk, RefsOk, NextOk;
      StepInv(Snapshot(), t);
      var n := threads[t].n;
      if threads[t].GetAssert? {
        result := None;
        threads := threads[t := GetTake(n)];
      } else {
        result := Some(n);
        freeListRefs := freeListRefs[n := (freeListRefs[n] - 2) % UINT32];
        threads := threads[t := Idle];
        place := place[n := Client];
      }
    }
  }
}
