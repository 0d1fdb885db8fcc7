/** Nothing is lost in a thread pool, and its workers stop when, and only when, their queues are done. */
module PoolDrain {
  import opened Counting
  import opened Options
  import opened ThreadPools
  import opened PoolSafety

  function CountIn(q: seq<Msg>, m: Msg): int { multiset(q)[m] }

  lemma CountPush(q: seq<Msg>, x: Msg, m: Msg)
    ensures CountIn(q + [x], m) == CountIn(q, m) + if x == m then 1 else 0
  {
  }

  lemma CountPop(q: seq<Msg>, m: Msg)
    requires q != []
    ensures CountIn(q, m) == CountIn(q[1..], m) + if q[0] == m then 1 else 0
  {
    assert q == [q[0]] + q[1..];
  }

  // ----- conservation -----

  function Hand(w: Worker, m: Msg): int { if w.Process? && w.m == m then 1 else 0 }
  function Enter(p: Producer, m: Msg): int { if Entering(p.pc) == [m] then 1 else 0 }
  ghost function CountFn(m: Msg): seq<Msg> -> int { q => CountIn(q, m) }
  ghost function HandFn(m: Msg): Worker -> int { w => Hand(w, m) }
  ghost function EnterFn(m: Msg): Producer -> int { p => Enter(p, m) }

  /** In how many places message m is: entering, in a queue, in a worker's hands, or at the sinks. */
  ghost function Places(s: State, m: Msg): int {
    CountIn(s.sunk, m) + Sum(s.queues, CountFn(m)) + Sum(s.workers, HandFn(m)) + Sum(s.producers, EnterFn(m))
  }

  predicate Issued(s: State, m: Msg) {
    !m.Terminate? && m.t < |s.producers| && m.n < |s.producers[m.t].calls| && s.producers[m.t].calls[m.n] == m
  }

  ghost predicate Conserved(s: State) {
    forall m: Msg :: !m.Terminate? ==> Places(s, m) == if Issued(s, m) then 1 else 0
  }

  // ----- the spin locks -----

  function Holds(p: Producer, q: nat): int { if (p.pc.Enqueue? || p.pc.Release?) && p.token == Some(q) then 1 else 0 }
  ghost function HoldsFn(q: nat): Producer -> int { p => Holds(p, q) }

  ghost predicate LocksOk(s: State) {
    s.concurrent ==> forall q :: 0 <= q < |s.locks| ==> Sum(s.producers, HoldsFn(q)) == if s.locks[q] then 1 else 0
  }

  // ----- the end -----

  /** The worker of queue q that has taken its order to stop. */
  function Ending(w: Worker, q: nat): int {
    if (w.Process? && w.q == q && w.m.Terminate?) || (w.Exited? && w.q == q) then 1 else 0
  }
  ghost function EndingFn(q: nat): Worker -> int { w => Ending(w, q) }

  /** Orders to stop that the destructor has put in queue q. */
  function Stops(s: State, q: nat): int {
    match s.shutdown
    case Running => 0
    case Terminating(i, _) => if s.concurrent then (if q < i then 1 else 0) else i
    case _ => if s.concurrent then 1 else |s.workers|
  }

  /** Orders to stop come last. */
  ghost predicate Tail(q: seq<Msg>) { forall a, b :: 0 <= a < b < |q| && q[a].Terminate? ==> q[b].Terminate? }

  ghost predicate OnlyStops(q: seq<Msg>) { forall k :: 0 <= k < |q| ==> q[k].Terminate? }

  ghost predicate EndAt(s: State, q: nat)
    requires q < |s.queues|
  {
    && CountIn(s.queues[q], Terminate) + Sum(s.workers, EndingFn(q)) == Stops(s, q)
    && Tail(s.queues[q])
    && (Sum(s.workers, EndingFn(q)) > 0 ==> OnlyStops(s.queues[q]))
  }

  ghost predicate EndOk(s: State) { forall q :: 0 <= q < |s.queues| ==> EndAt(s, q) }

  lemma InitDrain(s: State)
    requires Init(s)
    ensures Conserved(s) && LocksOk(s) && EndOk(s)
  {
    forall m: Msg | !m.Terminate? ensures Places(s, m) == 0 && !Issued(s, m) {
      SumZero(s.queues, CountFn(m));
      SumZero(s.workers, HandFn(m));
      SumZero(s.producers, EnterFn(m));
    }
    if s.concurrent {
      forall q | 0 <= q < |s.locks| ensures Sum(s.producers, HoldsFn(q)) == 0 { SumZero(s.producers, HoldsFn(q)); }
    }
    forall q | 0 <= q < |s.queues| ensures EndAt(s, q) { SumZero(s.workers, EndingFn(q)); }
  }

  // ----- every step conserves -----

  lemma CallConserves(s: State, t: nat, m: Msg)
    requires PoolSafety.Inv(s) && Conserved(s) && t < |s.producers| && s.producers[t].pc == Idle
    requires m == Log(t, |s.producers[t].calls|) || m == Flush(t, |s.producers[t].calls|)
    ensures Conserved(Call(s, t, m))
  {
    hide PoolSafety.Inv;
    var s' := Call(s, t, m);
    forall x: Msg | !x.Terminate? ensures Places(s', x) == if Issued(s', x) then 1 else 0 {
      assert Places(s, x) == if Issued(s, x) then 1 else 0;
      SumUpdate(s.producers, EnterFn(x), t, s'.producers[t]);
      assert x != m ==> Issued(s', x) == Issued(s, x);
      assert !Issued(s, m);
    }
  }

  lemma SameIssued(s: State, s': State, t: nat)
    requires t < |s.producers| == |s'.producers| && s'.producers == s.producers[t := s'.producers[t]]
    requires s'.producers[t].calls == s.producers[t].calls
    ensures forall x: Msg :: Issued(s', x) == Issued(s, x)
  {
  }

  lemma ProducerConserves(s: State, t: nat)
    requires Conserved(s) && Enabled(s, RunProducer(t)) && !s.producers[t].pc.Enqueue?
    ensures Conserved(ProducerStep(s, t))
  {
    var s' := ProducerStep(s, t);
    SameIssued(s, s', t);
    assert Entering(s'.producers[t].pc) == Entering(s.producers[t].pc);
    forall x: Msg | !x.Terminate? ensures Places(s', x) == if Issued(s', x) then 1 else 0 {
      assert Places(s, x) == if Issued(s, x) then 1 else 0;
      SumUpdate(s.producers, EnterFn(x), t, s'.producers[t]);
    }
  }

  lemma EnqueueConserves(s: State, t: nat)
    requires Conserved(s) && Enabled(s, RunProducer(t)) && s.producers[t].pc.Enqueue?
    ensures Conserved(ProducerStep(s, t))
  {
    var s' := ProducerStep(s, t);
    var m, q := s.producers[t].pc.m, QueueOf(s, s.producers[t]);
    SameIssued(s, s', t);
    assert Entering(s'.producers[t].pc) == [];
    forall x: Msg | !x.Terminate? ensures Places(s', x) == if Issued(s', x) then 1 else 0 {
      assert Places(s, x) == if Issued(s, x) then 1 else 0;
      SumUpdate(s.producers, EnterFn(x), t, s'.producers[t]);
      SumUpdate(s.queues, CountFn(x), q, s.queues[q] + [m]);
      CountPush(s.queues[q], m, x);
    }
  }

  lemma HandUpdate(workers: seq<Worker>, w: nat, v: Worker, m: Msg)
    requires w < |workers|
    ensures Sum(workers[w := v], HandFn(m)) == Sum(workers, HandFn(m)) - Hand(workers[w], m) + Hand(v, m)
  {
    SumUpdate(workers, HandFn(m), w, v);
  }

  lemma WorkerConserves(s: State, w: nat)
    requires Conserved(s) && Enabled(s, RunWorker(w)) && !s.workers[w].Dequeue? && !s.workers[w].Process?
    ensures Conserved(WorkerStep(s, w))
  {
    var s' := WorkerStep(s, w);
    forall x: Msg | !x.Terminate? ensures Places(s', x) == if Issued(s', x) then 1 else 0 {
      assert Places(s, x) == if Issued(s, x) then 1 else 0;
      HandUpdate(s.workers, w, s'.workers[w], x);
    }
  }

  lemma TakeConserves(s: State, w: nat)
    requires Conserved(s) && Enabled(s, RunWorker(w)) && s.workers[w].Dequeue?
    ensures Conserved(WorkerStep(s, w))
  {
    var s' := WorkerStep(s, w);
    var q := s.workers[w].q;
    forall x: Msg | !x.Terminate? ensures Places(s', x) == if Issued(s', x) then 1 else 0 {
      assert Places(s, x) == if Issued(s, x) then 1 else 0;
      HandUpdate(s.workers, w, s'.workers[w], x);
      SumUpdate(s.queues, CountFn(x), q, s.queues[q][1..]);
      CountPop(s.queues[q], x);
    }
  }

  lemma ProcessConserves(s: State, w: nat)
    requires Conserved(s) && Enabled(s, RunWorker(w)) && s.workers[w].Process?
    ensures Conserved(WorkerStep(s, w))
  {
    var s' := WorkerStep(s, w);
    forall x: Msg | !x.Terminate? ensures Places(s', x) == if Issued(s', x) then 1 else 0 {
      assert Places(s, x) == if Issued(s, x) then 1 else 0;
      HandUpdate(s.workers, w, s'.workers[w], x);
      CountPush(s.sunk, s.workers[w].m, x);
    }
  }

  lemma ShutdownConserves(s: State)
    requires Conserved(s) && Enabled(s, RunShutdown)
    ensures Conserved(ShutdownStep(s))
  {
    var s' := ShutdownStep(s);
    forall x: Msg | !x.Terminate? ensures Places(s', x) == if Issued(s', x) then 1 else 0 {
      assert Places(s, x) == if Issued(s, x) then 1 else 0;
      assert Issued(s', x) == Issued(s, x);
      if s'.queues != s.queues {
        var q := if s.concurrent then s.shutdown.i else 0;
        SumUpdate(s.queues, CountFn(x), q, s'.queues[q]);
        CountPush(s.queues[q], Terminate, x);
      }
    }
  }

  // ----- one thread at a time uses a token -----

  lemma ProducerLocks(s: State, t: nat)
    requires PoolSafety.Inv(s) && LocksOk(s) && Enabled(s, RunProducer(t))
    ensures LocksOk(ProducerStep(s, t))
  {
    hide OrderOk, FromOk, FlushOk, PermitsOk, BoundOk;
    var s' := ProducerStep(s, t);
    assert ProducerOk(s.concurrent, s.producerCnt, |s.queues|, t, s.producers[t]);
    if s.concurrent {
      forall q | 0 <= q < |s'.locks| ensures Sum(s'.producers, HoldsFn(q)) == if s'.locks[q] then 1 else 0 {
        SumUpdate(s.producers, HoldsFn(q), t, s'.producers[t]);
        SumAtLeast(s.producers, HoldsFn(q), t);
      }
    }
  }

  lemma CallLocks(s: State, t: nat, m: Msg)
    requires LocksOk(s) && t < |s.producers| && s.producers[t].pc == Idle
    ensures LocksOk(Call(s, t, m))
  {
    var s' := Call(s, t, m);
    if s.concurrent {
      forall q | 0 <= q < |s'.locks| ensures Sum(s'.producers, HoldsFn(q)) == if s'.locks[q] then 1 else 0 {
        SumUpdate(s.producers, HoldsFn(q), t, s'.producers[t]);
      }
    }
  }

  // ----- the orders to stop -----

  lemma PushMessageEnd(s: State, s': State, q: nat, m: Msg)
    requires EndOk(s) && s.shutdown == s'.shutdown == Running && s'.workers == s.workers && s'.concurrent == s.concurrent
    requires q < |s.queues| && s'.queues == s.queues[q := s.queues[q] + [m]] && !m.Terminate?
    ensures EndOk(s')
  {
    forall k | 0 <= k < |s'.queues| ensures EndAt(s', k) {
      assert EndAt(s, k);
      CountPush(s.queues[q], m, Terminate);
      SumNonNegative(s.workers, EndingFn(k));
      if k == q { NoStops(s.queues[q]); }
    }
  }

  lemma NoStops(q: seq<Msg>)
    requires CountIn(q, Terminate) == 0
    ensures forall k :: 0 <= k < |q| ==> !q[k].Terminate?
  {
    forall k | 0 <= k < |q| ensures !q[k].Terminate? {
      assert q[k] in multiset(q);
      assert Terminate !in multiset(q);
    }
  }

  lemma ProducerEnd(s: State, t: nat)
    requires PoolSafety.Inv(s) && EndOk(s) && Enabled(s, RunProducer(t))
    ensures EndOk(ProducerStep(s, t))
  {
    hide OrderOk, FromOk, FlushOk, PermitsOk, BoundOk;
    var s' := ProducerStep(s, t);
    if s.producers[t].pc.Enqueue? {
      assert s.shutdown == Running;
      assert ProducerOk(s.concurrent, s.producerCnt, |s.queues|, t, s.producers[t]);
      PushMessageEnd(s, s', QueueOf(s, s.producers[t]), s.producers[t].pc.m);
    } else {
      forall k | 0 <= k < |s'.queues| ensures EndAt(s', k) { assert EndAt(s, k); }
    }
  }

  lemma EndingUpdate(workers: seq<Worker>, w: nat, v: Worker, q: nat)
    requires w < |workers|
    ensures Sum(workers[w := v], EndingFn(q)) == Sum(workers, EndingFn(q)) - Ending(workers[w], q) + Ending(v, q)
  {
    SumUpdate(workers, EndingFn(q), w, v);
  }

  lemma WorkerEndAt(s: State, w: nat, k: nat)
    requires k < |s.queues| && EndAt(s, k) && Enabled(s, RunWorker(w)) && !s.workers[w].Dequeue?
    ensures var s' := WorkerStep(s, w); k < |s'.queues| && EndAt(s', k)
  {
    hide Tail, OnlyStops;
    EndingUpdate(s.workers, w, WorkerStep(s, w).workers[w], k);
  }

  lemma WorkerEnd(s: State, w: nat)
    requires EndOk(s) && Enabled(s, RunWorker(w)) && !s.workers[w].Dequeue?
    ensures EndOk(WorkerStep(s, w))
  {
    forall k | 0 <= k < |s.queues| ensures EndAt(WorkerStep(s, w), k) { WorkerEndAt(s, w, k); }
  }

  lemma TakeEnd(s: State, w: nat)
    requires EndOk(s) && Enabled(s, RunWorker(w)) && s.workers[w].Dequeue?
    ensures EndOk(WorkerStep(s, w))
  {
    var s' := WorkerStep(s, w);
    var q := s.workers[w].q;
    forall k | 0 <= k < |s'.queues| ensures EndAt(s', k) {
      assert EndAt(s, k);
      EndingUpdate(s.workers, w, s'.workers[w], k);
      if k == q {
        CountPop(s.queues[q], Terminate);
        PopTail(s.queues[q]);
      }
    }
  }

  lemma PopTail(q: seq<Msg>)
    requires q != [] && Tail(q)
    ensures Tail(q[1..]) && (q[0].Terminate? || OnlyStops(q) ==> OnlyStops(q[1..]))
  {
    forall a, b | 0 <= a < b < |q[1..]| && q[1..][a].Terminate? ensures q[1..][b].Terminate? {
      assert q[a + 1].Terminate?;
    }
  }

  lemma PushStop(q: seq<Msg>)
    ensures CountIn(q + [Terminate], Terminate) == CountIn(q, Terminate) + 1
    ensures Tail(q) ==> Tail(q + [Terminate])
    ensures OnlyStops(q) ==> OnlyStops(q + [Terminate])
  {
    CountPush(q, Terminate, Terminate);
  }

  lemma ShutdownEndAt(s: State, k: nat)
    requires k < |s.queues| && EndAt(s, k) && Enabled(s, RunShutdown) && Shape(s)
    ensures var s' := ShutdownStep(s); k < |s'.queues| && EndAt(s', k)
  {
    hide Tail, OnlyStops, CountIn;
    PushStop(s.queues[k]);
  }

  lemma ShutdownEnd(s: State)
    requires PoolSafety.Inv(s) && EndOk(s) && Enabled(s, RunShutdown)
    ensures EndOk(ShutdownStep(s))
  {
    hide OrderOk, FromOk, FlushOk, PermitsOk, BoundOk, ProducersOk;
    forall k | 0 <= k < |s.queues| ensures EndAt(ShutdownStep(s), k) { ShutdownEndAt(s, k); }
  }

  // ----- all together -----

  ghost predicate Inv(s: State) { PoolSafety.Inv(s) && Conserved(s) && LocksOk(s) && EndOk(s) }

  lemma CallKeeps(s: State, t: nat, m: Msg)
    requires Inv(s) && s.shutdown == Running && t < |s.producers| && s.producers[t].pc == Idle
    requires m == Log(t, |s.producers[t].calls|) || m == Flush(t, |s.producers[t].calls|)
    ensures Inv(Call(s, t, m))
  {
    hide PoolSafety.Inv, Conserved, LocksOk;
    PoolSafety.CallKeeps(s, t, m);
    CallConserves(s, t, m);
    CallLocks(s, t, m);
    SameEnd(s, Call(s, t, m));
  }

  lemma SameEnd(s: State, s': State)
    requires EndOk(s) && s'.queues == s.queues && s'.workers == s.workers && s'.concurrent == s.concurrent
    requires forall k :: 0 <= k < |s.queues| ==> Stops(s', k) == Stops(s, k)
    ensures EndOk(s')
  {
    forall k | 0 <= k < |s'.queues| ensures EndAt(s', k) { assert EndAt(s, k); }
  }

  lemma ProducerKeeps(s: State, t: nat)
    requires Inv(s) && Enabled(s, RunProducer(t))
    ensures Inv(ProducerStep(s, t))
  {
    hide PoolSafety.Inv, Conserved, LocksOk, EndOk;
    ProducerLocks(s, t);
    ProducerEnd(s, t);
    if s.producers[t].pc.Enqueue? {
      PoolSafety.EnqueueKeeps(s, t);
      EnqueueConserves(s, t);
    } else {
      ProducerConserves(s, t);
      if s.producers[t].pc.FindToken? { PoolSafety.FindTokenKeeps(s, t); } else { PoolSafety.SpinKeeps(s, t); }
    }
  }

  lemma WorkerKeeps(s: State, w: nat)
    requires Inv(s) && Enabled(s, RunWorker(w))
    ensures Inv(WorkerStep(s, w))
  {
    hide PoolSafety.Inv, Conserved, EndOk;
    match s.workers[w] {
      case Dequeue(_) => PoolSafety.TakeKeeps(s, w); TakeConserves(s, w); TakeEnd(s, w);
      case Process(_, _) => PoolSafety.ProcessKeeps(s, w); ProcessConserves(s, w); WorkerEnd(s, w);
      case Fulfil(_, _) => PoolSafety.FulfilKeeps(s, w); WorkerConserves(s, w); WorkerEnd(s, w);
      case _ => PoolSafety.BindKeeps(s, w); WorkerConserves(s, w); WorkerEnd(s, w);
    }
  }

  lemma ShutdownKeeps(s: State)
    requires Inv(s) && Enabled(s, RunShutdown)
    ensures Inv(ShutdownStep(s))
  {
    hide PoolSafety.Inv, Conserved, EndOk;
    PoolSafety.ShutdownKeeps(s);
    ShutdownConserves(s);
    ShutdownEnd(s);
  }

  lemma BeginKeeps(s: State)
    requires Inv(s) && Enabled(s, BeginShutdown)
    ensures Inv(Next(s, BeginShutdown))
  {
    hide PoolSafety.Inv;
    var s' := Next(s, BeginShutdown);
    PoolSafety.BeginKeeps(s);
    SameEnd(s, s');
    forall x: Msg | !x.Terminate? ensures Places(s', x) == if Issued(s', x) then 1 else 0 {
      assert Places(s, x) == if Issued(s, x) then 1 else 0;
    }
  }

  lemma NextInv(s: State, a: Action)
    requires Inv(s) && Enabled(s, a)
    ensures Inv(Next(s, a))
  {
    hide Inv, ProducerStep, WorkerStep, ShutdownStep, Call;
    match a {
      case CallLog(t) => CallKeeps(s, t, Log(t, |s.producers[t].calls|));
      case CallFlush(t) => CallKeeps(s, t, Flush(t, |s.producers[t].calls|));
      case RunProducer(t) => ProducerKeeps(s, t);
      case RunWorker(w) => WorkerKeeps(s, w);
      case BeginShutdown => BeginKeeps(s);
      case RunShutdown => ShutdownKeeps(s);
    }
  }

  ghost predicate Moves(s: State, a: Action, s': State) { Enabled(s, a) && s' == Next(s, a) }

  ghost predicate Leads(s: State, s': State) { exists a :: Moves(s, a, s') }

  ghost predicate IsRun(run: seq<State>) {
    && run != [] && Init(run[0])
    && (forall i :: 0 <= i < |run| - 1 ==> Leads(run[i], run[i + 1]))
  }

  ghost predicate Reachable(s: State) { exists run :: IsRun(run) && run[|run| - 1] == s }

  lemma {:induction false} RunInv(run: seq<State>, i: nat)
    requires IsRun(run) && i < |run|
    ensures Inv(run[i])
  {
    hide PoolSafety.Inv, Conserved, LocksOk, EndOk, Enabled, Next, Init;
    if i == 0 {
      PoolSafety.InitInv(run[0]);
      InitDrain(run[0]);
    } else {
      RunInv(run, i - 1);
      assert Leads(run[i - 1], run[i - 1 + 1]);
      var a :| Moves(run[i - 1], a, run[i]);
      NextInv(run[i - 1], a);
    }
  }

  lemma ReachableInv(s: State)
    requires Reachable(s)
    ensures Inv(s)
  {
    hide Inv, Enabled, Next, Init;
    var run :| IsRun(run) && run[|run| - 1] == s;
    RunInv(run, |run| - 1);
  }

  // ----- what every run guarantees -----

  /** Each call's message is in exactly one place, and no message that was not issued is anywhere. */
  lemma NothingIsLostOrDoubled(s: State, m: Msg)
    requires Reachable(s) && !m.Terminate?
    ensures Places(s, m) == if Issued(s, m) then 1 else 0
  {
    hide PoolSafety.Inv;
    ReachableInv(s);
  }

  /** A thread's messages reach the sinks in the order of its calls: what has been handed over is always
      a first part of them. */
  lemma SinksKeepThreadOrder(s: State, t: nat)
    requires Reachable(s) && Single(s) && t < |s.producers|
    ensures Filter(s.sunk, t) <= s.producers[t].calls
  {
    hide Inv;
    ReachableInv(s);
    OrderFact(s, t);
  }

  lemma OrderFact(s: State, t: nat)
    requires Inv(s) && Single(s) && t < |s.producers|
    ensures Filter(s.sunk, t) <= s.producers[t].calls
  {
    hide Filter, PermitsOk, BoundOk, ProducersOk, FromOk, FlushOk, Conserved, LocksOk, EndOk;
    assert OrderAt(s, t);
    var p := s.producers[t];
    if p.token.Some? && Busy(s.workers, p.token.value) {
      var w :| 0 <= w < |s.workers| && s.workers[w].Process? && s.workers[w].q == p.token.value;
      assert Line(s.sunk, [s.workers[w].m], s.queues[p.token.value], p, t);
    }
  }

  /** When the promise of a flush is set, all that the thread logged before has been handed to the sinks, and
      the sinks have been flushed after that. */
  lemma FulfilledFlushIsABarrier(s: State, t: nat)
    requires Reachable(s) && Single(s) && Enabled(s, RunProducer(t)) && s.producers[t].pc.AwaitFlush?
    ensures Filter(s.sunk, t) == s.producers[t].calls && s.producers[t].calls != []
    ensures s.producers[t].calls[|s.producers[t].calls| - 1] == Flush(t, s.producers[t].pc.n)
  {
    hide Inv;
    ReachableInv(s);
    OrderFact(s, t);
    CallsFact(s, t);
    var f := Flush(t, s.producers[t].pc.n);
    FilterHas(s.sunk, t, f);
    var j :| 0 <= j < |Filter(s.sunk, t)| && Filter(s.sunk, t)[j] == f;
    assert s.producers[t].calls[j] == f;
  }

  lemma CallsFact(s: State, t: nat)
    requires Inv(s) && t < |s.producers|
    ensures forall j :: 0 <= j < |s.producers[t].calls| ==>
              s.producers[t].calls[j] == Log(t, j) || s.producers[t].calls[j] == Flush(t, j)
    ensures s.producers[t].pc.AwaitFlush? ==>
              s.producers[t].calls != [] && s.producers[t].calls[|s.producers[t].calls| - 1] == Flush(t, s.producers[t].pc.n)
    ensures forall m :: m in s.fulfilled ==> m in s.sunk
  {
    hide Filter, PermitsOk, BoundOk, FromOk, OrderOk, Conserved, LocksOk, EndOk;
    assert ProducerOk(s.concurrent, s.producerCnt, |s.queues|, t, s.producers[t]);
  }

  lemma {:induction false} FilterHas(s: seq<Msg>, t: nat, m: Msg)
    requires m in s && Of(m, t)
    ensures m in Filter(s, t)
  {
    if s[0] != m { FilterHas(s[1..], t, m); }
  }

  /** No two threads enqueue with the same token at once. */
  lemma OneThreadPerToken(s: State, t: nat, u: nat)
    requires Reachable(s) && s.concurrent && t < u < |s.producers|
    requires s.producers[t].pc.Enqueue? && s.producers[u].pc.Enqueue?
    ensures s.producers[t].token != s.producers[u].token
  {
    hide PoolSafety.Inv, Conserved, EndOk;
    ReachableInv(s);
    TokenFact(s, t);
    var q := s.producers[t].token.value;
    if s.producers[u].token == Some(q) {
      SumAtLeastTwo(s.producers, HoldsFn(q), t, u);
    }
  }

  lemma TokenFact(s: State, t: nat)
    requires Inv(s) && t < |s.producers| && s.producers[t].pc.Enqueue?
    ensures s.producers[t].token.Some? && s.producers[t].token.value < |s.queues| == |s.locks|
  {
    hide Filter, PermitsOk, BoundOk, FromOk, OrderOk, FlushOk, Conserved, LocksOk, EndOk;
    assert ProducerOk(s.concurrent, s.producerCnt, |s.queues|, t, s.producers[t]);
  }

  // ----- tokens and workers are in bijection -----

  /** The tokens that workers are bound to. */
  ghost function Taken(workers: seq<Worker>): set<nat> {
    if workers == [] then {}
    else Taken(workers[1..]) + if BoundTo(workers[0]).Some? then {BoundTo(workers[0]).value} else {}
  }

  lemma {:induction false} TakenBy(workers: seq<Worker>, k: nat)
    ensures k in Taken(workers) <==> exists w :: 0 <= w < |workers| && BoundTo(workers[w]) == Some(k)
  {
    if workers != [] {
      TakenBy(workers[1..], k);
      if k in Taken(workers[1..]) {
        var w :| 0 <= w < |workers[1..]| && BoundTo(workers[1..][w]) == Some(k);
        assert BoundTo(workers[w + 1]) == Some(k);
      }
      forall w | 0 <= w < |workers| && BoundTo(workers[w]) == Some(k) ensures k in Taken(workers) {
        if w > 0 { assert workers[1..][w - 1] == workers[w]; }
      }
    }
  }

  ghost predicate AllDifferent(workers: seq<Worker>) {
    forall w, v :: 0 <= w < v < |workers| && BoundTo(workers[w]).Some? ==> BoundTo(workers[w]) != BoundTo(workers[v])
  }

  lemma {:induction false} TakenCount(workers: seq<Worker>)
    requires AllDifferent(workers)
    ensures |Taken(workers)| == Sum(workers, PastFetchFn())
  {
    if workers != [] {
      forall w, v | 0 <= w < v < |workers[1..]| && BoundTo(workers[1..][w]).Some?
        ensures BoundTo(workers[1..][w]) != BoundTo(workers[1..][v])
      {
        assert workers[1..][w] == workers[w + 1] && workers[1..][v] == workers[v + 1];
      }
      TakenCount(workers[1..]);
      if BoundTo(workers[0]).Some? {
        var k := BoundTo(workers[0]).value;
        TakenBy(workers[1..], k);
        forall w | 0 <= w < |workers[1..]| ensures BoundTo(workers[1..][w]) != Some(k) {
          assert workers[w + 1] == workers[1..][w];
        }
      }
    }
  }

  lemma {:induction false} RangeCount(a: set<nat>, n: nat)
    requires forall x :: x in a ==> x < n
    ensures |a| <= n
    ensures |a| == n ==> forall k :: 0 <= k < n ==> k in a
  {
    if n > 0 {
      var b := a - {n - 1};
      RangeCount(b, n - 1);
      assert |a| == |b| + if n - 1 in a then 1 else 0;
    } else {
      assert a == {};
    }
  }

  ghost predicate HasWorker(s: State, k: nat) { exists w :: 0 <= w < |s.workers| && BoundTo(s.workers[w]) == Some(k) }

  /** Each token below the number of workers that fetched an index has exactly one worker. */
  lemma TokenIsTaken(s: State, k: nat)
    requires Inv(s) && s.concurrent && k < s.consumerCnt
    ensures HasWorker(s, k)
  {
    hide Filter, FromOk, OrderOk, FlushOk, Conserved, LocksOk, EndOk, ProducersOk;
    TakenCount(s.workers);
    forall x | x in Taken(s.workers) ensures x < s.consumerCnt { TakenBy(s.workers, x); }
    RangeCount(Taken(s.workers), s.consumerCnt);
    TakenBy(s.workers, k);
  }

  /** Workers past their start permit that have yet to bind themselves. */
  ghost function OnTheirWay(s: State): int { Sum(s.workers, PastPermitFn()) - Sum(s.workers, PastFetchFn()) }

  /** Every token in use has a worker bound to it, or a worker on its way to the next token, or a start
      permit not yet claimed. */
  lemma TokenHasAWorker(s: State, t: nat)
    requires Reachable(s) && s.concurrent && t < |s.producers| && s.producers[t].token.Some?
    ensures HasWorker(s, s.producers[t].token.value) || OnTheirWay(s) > 0 || s.permits > 0
  {
    hide Inv, HasWorker;
    ReachableInv(s);
    TokenInUse(s, t);
    if s.producers[t].token.value < s.consumerCnt {
      TokenIsTaken(s, s.producers[t].token.value);
    }
  }

  lemma TokenInUse(s: State, t: nat)
    requires Inv(s) && s.concurrent && t < |s.producers| && s.producers[t].token.Some?
    ensures s.producers[t].token.value < s.consumerCnt + OnTheirWay(s) + s.permits
  {
    hide Filter, BoundOk, FromOk, OrderOk, FlushOk, Conserved, LocksOk, EndOk;
    assert ProducerOk(s.concurrent, s.producerCnt, |s.queues|, t, s.producers[t]);
  }

  // ----- shutting down -----

  ghost predicate AllExited(s: State) { forall w :: 0 <= w < |s.workers| ==> s.workers[w].Exited? }

  lemma {:induction false} AllStops(q: seq<Msg>)
    requires OnlyStops(q)
    ensures CountIn(q, Terminate) == |q|
  {
    if q != [] {
      CountPop(q, Terminate);
      forall k | 0 <= k < |q[1..]| ensures q[1..][k].Terminate? { assert q[k + 1].Terminate?; }
      AllStops(q[1..]);
    }
  }

  /** When all workers have exited, each queue is empty and each order to stop was taken by one worker. */
  lemma QueueIsDone(s: State, q: nat)
    requires Inv(s) && AllExited(s) && q < |s.queues|
    ensures s.queues[q] == [] && s.shutdown != Running
    ensures Sum(s.workers, EndingFn(q)) == if s.concurrent then 1 else |s.workers|
  {
    hide Filter, FromOk, OrderOk, FlushOk, Conserved, LocksOk, ProducersOk;
    assert EndAt(s, q);
    if s.concurrent {
      SumConstant(s.workers, PastFetchFn(), 1);
      TokenIsTaken(s, q);
      var w :| 0 <= w < |s.workers| && BoundTo(s.workers[w]) == Some(q);
      SumAtLeast(s.workers, EndingFn(q), w);
    } else {
      forall w | 0 <= w < |s.workers| ensures Ending(s.workers[w], q) == 1 { assert BoundTo(s.workers[w]).Some?; }
      SumConstant(s.workers, EndingFn(q), 1);
    }
    if OnlyStops(s.queues[q]) { AllStops(s.queues[q]); }
  }

  /** Shutting down drains the pool: once all workers have exited, every message ever issued has been
      handed to the sinks exactly once, and in order where queues have one worker each. */
  lemma ShutdownDrains(s: State, m: Msg)
    requires Reachable(s) && AllExited(s) && Issued(s, m)
    ensures CountIn(s.sunk, m) == 1
    ensures forall q :: 0 <= q < |s.queues| ==> s.queues[q] == []
  {
    hide Inv;
    ReachableInv(s);
    NothingIsLostOrDoubled(s, m);
    forall q | 0 <= q < |s.queues| ensures s.queues[q] == [] && CountIn(s.queues[q], m) == 0 { QueueIsDone(s, q); }
    SumZero(s.queues, CountFn(m));
    SumZero(s.workers, HandFn(m));
    NobodyEnters(s);
    SumZero(s.producers, EnterFn(m));
  }

  lemma NobodyEnters(s: State)
    requires Inv(s) && AllExited(s)
    ensures forall t :: 0 <= t < |s.producers| ==> s.producers[t].pc == Idle
  {
    assert 0 < |s.queues| by { hide PermitsOk, BoundOk, ProducersOk, FromOk, OrderOk, FlushOk, Conserved, LocksOk, EndOk; }
    QueueIsDone(s, 0);
    hide PermitsOk, BoundOk, ProducersOk, FromOk, OrderOk, FlushOk, Conserved, LocksOk, EndOk;
  }

  lemma ShutdownKeepsOrder(s: State, t: nat)
    requires Reachable(s) && Single(s) && AllExited(s) && t < |s.producers|
    ensures Filter(s.sunk, t) == s.producers[t].calls
  {
    hide Inv, Filter;
    ReachableInv(s);
    NobodyEnters(s);
    forall q | 0 <= q < |s.queues| ensures s.queues[q] == [] { QueueIsDone(s, q); }
    FilterNone([], t);
    AtRest(s, t);
  }

  lemma AtRest(s: State, t: nat)
    requires Inv(s) && Single(s) && AllExited(s) && t < |s.producers| && s.producers[t].pc == Idle
    requires forall q :: 0 <= q < |s.queues| ==> s.queues[q] == []
    requires Filter([], t) == []
    ensures Filter(s.sunk, t) == s.producers[t].calls
  {
    hide Filter, PermitsOk, BoundOk, ProducersOk, FromOk, FlushOk, Conserved, LocksOk, EndOk;
    assert OrderAt(s, t);
  }
}
