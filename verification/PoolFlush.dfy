/** What a flush guarantees once it has returned, and that it does return: a thread pool comes to rest only
    when every message has been handed over and every flush is done. */
module PoolFlush {
  import opened Counting
  import opened Options
  import opened ThreadPools
  import opened PoolSafety
  import opened PoolDrain

  /** The j-th call of thread t is a flush that has returned: it is not the call under way. */
  predicate Returned(s: State, t: nat, j: nat) {
    && t < |s.producers| && j < |s.producers[t].calls| && s.producers[t].calls[j].Flush?
    && (s.producers[t].pc == Idle || j + 1 < |s.producers[t].calls|)
  }

  predicate BeingFulfilled(s: State, m: Msg) { exists w :: 0 <= w < |s.workers| && s.workers[w].Fulfil? && s.workers[w].m == m }

  /** A flush returns when its promise is set, and the promise is set after the sinks have been flushed. */
  ghost predicate FlushesOk(s: State) {
    && (forall t: nat, j: nat :: Returned(s, t, j) ==> s.producers[t].calls[j] in s.fulfilled)
    && (forall m :: m in s.sunk && m.Flush? ==> m in s.fulfilled || BeingFulfilled(s, m))
  }

  lemma CallReturns(s: State, t: nat, m: Msg)
    requires FlushesOk(s) && t < |s.producers| && s.producers[t].pc == Idle
    ensures FlushesOk(Call(s, t, m))
  {
    var s' := Call(s, t, m);
    forall u: nat, j: nat | Returned(s', u, j) ensures s'.producers[u].calls[j] in s'.fulfilled { assert Returned(s, u, j); }
    forall x | x in s'.sunk && x.Flush? && BeingFulfilled(s, x) ensures BeingFulfilled(s', x) {}
  }

  lemma ProducerReturns(s: State, t: nat)
    requires PoolDrain.Inv(s) && FlushesOk(s) && Enabled(s, RunProducer(t))
    ensures FlushesOk(ProducerStep(s, t))
  {
    hide PermitsOk, BoundOk, FromOk, OrderOk, FlushOk, Conserved, LocksOk, EndOk;
    assert ProducerOk(s.concurrent, s.producerCnt, |s.queues|, t, s.producers[t]);
    var s' := ProducerStep(s, t);
    forall u: nat, j: nat | Returned(s', u, j) ensures s'.producers[u].calls[j] in s'.fulfilled {
      if u != t || j + 1 < |s.producers[t].calls| { assert Returned(s, u, j); }
    }
    forall x | x in s'.sunk && x.Flush? && BeingFulfilled(s, x) ensures BeingFulfilled(s', x) {}
  }

  lemma WorkerReturns(s: State, w: nat)
    requires FlushesOk(s) && Enabled(s, RunWorker(w))
    ensures FlushesOk(WorkerStep(s, w))
  {
    var s' := WorkerStep(s, w);
    forall u: nat, j: nat | Returned(s', u, j) ensures s'.producers[u].calls[j] in s'.fulfilled { assert Returned(s, u, j); }
    forall m | m in s'.sunk && m.Flush? ensures m in s'.fulfilled || BeingFulfilled(s', m) {
      if m in s.sunk && m !in s.fulfilled {
        var v :| 0 <= v < |s.workers| && s.workers[v].Fulfil? && s.workers[v].m == m;
        assert v != w ==> s'.workers[v] == s.workers[v];
      } else if m !in s.sunk {
        assert s'.workers[w].Fulfil? && s'.workers[w].m == m;
      }
    }
  }

  lemma RestReturns(s: State, s': State)
    requires FlushesOk(s) && s'.producers == s.producers && s'.workers == s.workers && s'.sunk == s.sunk && s'.fulfilled == s.fulfilled
    ensures FlushesOk(s')
  {
    forall u: nat, j: nat | Returned(s', u, j) ensures s'.producers[u].calls[j] in s'.fulfilled { assert Returned(s, u, j); }
    forall x | x in s'.sunk && x.Flush? && BeingFulfilled(s, x) ensures BeingFulfilled(s', x) {}
  }

  lemma StepReturns(s: State, a: Action)
    requires PoolDrain.Inv(s) && FlushesOk(s) && Enabled(s, a)
    ensures FlushesOk(Next(s, a))
  {
    hide PoolDrain.Inv, FlushesOk, Call, ProducerStep, WorkerStep;
    match a {
      case CallLog(t) => CallReturns(s, t, Log(t, |s.producers[t].calls|));
      case CallFlush(t) => CallReturns(s, t, Flush(t, |s.producers[t].calls|));
      case RunProducer(t) => ProducerReturns(s, t);
      case RunWorker(w) => WorkerReturns(s, w);
      case _ => RestReturns(s, Next(s, a));
    }
  }

  lemma {:induction false} RunReturns(run: seq<State>, i: nat)
    requires IsRun(run) && i < |run|
    ensures FlushesOk(run[i])
  {
    hide PoolDrain.Inv, Enabled, Next;
    if i > 0 {
      RunReturns(run, i - 1);
      RunInv(run, i - 1);
      assert Leads(run[i - 1], run[i - 1 + 1]);
      var a :| Moves(run[i - 1], a, run[i]);
      StepReturns(run[i - 1], a);
    }
  }

  lemma ReachableReturns(s: State)
    requires Reachable(s)
    ensures FlushesOk(s)
  {
    hide Leads, Init, FlushesOk;
    var run :| IsRun(run) && run[|run| - 1] == s;
    RunReturns(run, |run| - 1);
  }

  // ----- a flush that has returned -----

  /** It returns only when its promise has been set, and so after the sinks have been flushed for it. */
  lemma FlushWaits(s: State, t: nat, j: nat)
    requires Reachable(s) && Returned(s, t, j)
    ensures s.producers[t].calls[j] == Flush(t, j) && Flush(t, j) in s.fulfilled && Flush(t, j) in s.sunk
  {
    hide Reachable, PoolDrain.Inv, BeingFulfilled;
    ReachableReturns(s);
    ReachableInv(s);
    CallsFact(s, t);
  }

  /** flush is a barrier: once it has returned, all that its thread logged before it has been handed to the
      sinks, in order, and the sinks have been flushed after that. */
  lemma FlushIsABarrier(s: State, t: nat, j: nat)
    requires Reachable(s) && Single(s) && Returned(s, t, j)
    ensures s.producers[t].calls[..j + 1] <= Filter(s.sunk, t) <= s.producers[t].calls
    ensures j + 1 == |s.producers[t].calls| ==> Filter(s.sunk, t) == s.producers[t].calls
  {
    hide Reachable, PoolDrain.Inv;
    FlushWaits(s, t, j);
    SinksKeepThreadOrder(s, t);
    ReachableInv(s);
    CallsFact(s, t);
    FilterHas(s.sunk, t, Flush(t, j));
    var k :| 0 <= k < |Filter(s.sunk, t)| && Filter(s.sunk, t)[k] == Flush(t, j);
    assert s.producers[t].calls[k] == Flush(t, j);
  }

  // ----- a pool at rest -----

  /** No worker and no thread in a call can go on. */
  ghost predicate Resting(s: State) {
    && (forall w: nat :: w < |s.workers| ==> !Enabled(s, RunWorker(w)))
    && (forall t: nat :: t < |s.producers| ==> !Enabled(s, RunProducer(t)))
  }

  lemma NobodyEnds(s: State, w: nat)
    requires PoolDrain.Inv(s) && s.shutdown == Running && w < |s.workers|
    ensures !s.workers[w].Exited?
  {
    hide Filter, PermitsOk, FromOk, OrderOk, FlushOk, Conserved, LocksOk, ProducersOk;
    if s.workers[w].Exited? {
      assert EndAt(s, s.workers[w].q) by { assert BoundTo(s.workers[w]).Some?; }
      SumAtLeast(s.workers, EndingFn(s.workers[w].q), w);
    }
  }

  lemma RestingWorker(s: State, w: nat)
    requires PoolDrain.Inv(s) && s.shutdown == Running && Resting(s) && w < |s.workers|
    ensures s.workers[w] == WaitPermit || (s.workers[w].Dequeue? && s.workers[w].q < |s.queues| && s.queues[s.workers[w].q] == [])
    ensures s.workers[w] == WaitPermit ==> s.permits == 0
  {
    hide Filter, PermitsOk, FromOk, OrderOk, FlushOk, Conserved, LocksOk, ProducersOk, EndOk;
    NobodyEnds(s, w);
    assert !Enabled(s, RunWorker(w));
  }

  lemma {:induction false} SameSums(workers: seq<Worker>)
    requires forall w :: 0 <= w < |workers| ==> workers[w] == WaitPermit || workers[w].Dequeue?
    ensures Sum(workers, PastPermitFn()) == Sum(workers, PastFetchFn())
  {
    if workers != [] {
      forall w | 0 <= w < |workers[1..]| ensures workers[1..][w] == WaitPermit || workers[1..][w].Dequeue? {
        assert workers[1..][w] == workers[w + 1];
      }
      SameSums(workers[1..]);
    }
  }

  /** The queue of a token in use has its worker. */
  lemma WorkerIsThere(s: State, t: nat)
    requires PoolDrain.Inv(s) && s.shutdown == Running && Resting(s) && t < |s.producers| && s.producers[t].token.Some?
    ensures HasWorker(s, s.producers[t].token.value)
  {
    hide Filter, FromOk, OrderOk, FlushOk, Conserved, LocksOk, EndOk, Resting;
    forall w: nat | w < |s.workers|
      ensures s.workers[w] == WaitPermit || s.workers[w].Dequeue?
      ensures s.workers[w] == WaitPermit ==> s.permits == 0
    {
      RestingWorker(s, w);
    }
    assert ProducerOk(s.concurrent, s.producerCnt, |s.queues|, t, s.producers[t]);
    var q := s.producers[t].token.value;
    if s.concurrent {
      SameSums(s.workers);
      TokenInUse(s, t);
      if s.permits > 0 { SumConstant(s.workers, PastFetchFn(), 1); }
      TokenIsTaken(s, q);
    } else {
      assert BoundTo(s.workers[0]) == Some(0);
    }
  }

  lemma QueueIsEmpty(s: State, q: nat)
    requires PoolDrain.Inv(s) && s.shutdown == Running && Resting(s) && q < |s.queues|
    ensures s.queues[q] == []
  {
    hide Filter, PermitsOk, OrderOk, FlushOk, Conserved, LocksOk, BoundOk, ProducersOk, Resting;
    if s.queues[q] != [] {
      assert EndAt(s, q);
      SumNonNegative(s.workers, EndingFn(q));
      NoStops(s.queues[q]);
      assert Belongs(s.queues[q][0], q, s.producers);
      WorkerIsThere(s, s.queues[q][0].t);
      var w :| 0 <= w < |s.workers| && BoundTo(s.workers[w]) == Some(q);
      RestingWorker(s, w);
    }
  }

  lemma EverythingIsSunk(s: State, m: Msg)
    requires Reachable(s) && s.shutdown == Running && Resting(s) && Issued(s, m)
    requires forall t :: 0 <= t < |s.producers| ==> Entering(s.producers[t].pc) != [m]
    ensures CountIn(s.sunk, m) == 1
  {
    hide PoolDrain.Inv, Reachable, Resting;
    ReachableInv(s);
    NothingIsLostOrDoubled(s, m);
    forall q | 0 <= q < |s.queues| ensures CountIn(s.queues[q], m) == 0 { QueueIsEmpty(s, q); }
    forall w | 0 <= w < |s.workers| ensures !s.workers[w].Process? { RestingWorker(s, w); }
    SumZero(s.queues, CountFn(m));
    SumZero(s.workers, HandFn(m));
    SumZero(s.producers, EnterFn(m));
  }

  /** Nobody waits: not for room, as the queues are empty, nor for a flush. */
  lemma NobodyWaits(s: State, t: nat)
    requires Reachable(s) && s.shutdown == Running && Resting(s) && (s.concurrent || s.capacity > 0) && t < |s.producers|
    ensures s.producers[t].pc == Idle
  {
    hide Reachable, Filter, PermitsOk, OrderOk, FromOk, FlushOk, Conserved, LocksOk, BoundOk, EndOk;
    ReachableInv(s);
    ReachableReturns(s);
    assert ProducerOk(s.concurrent, s.producerCnt, |s.queues|, t, s.producers[t]);
    assert !Enabled(s, RunProducer(t));
    var p := s.producers[t];
    if p.pc.Enqueue? {
      QueueIsEmpty(s, QueueOf(s, p));
    } else if p.pc.AwaitFlush? {
      FlushIsFulfilled(s, t);
    }
  }

  lemma FlushIsFulfilled(s: State, t: nat)
    requires Reachable(s) && s.shutdown == Running && Resting(s) && t < |s.producers| && s.producers[t].pc.AwaitFlush?
    ensures Flush(t, s.producers[t].pc.n) in s.fulfilled
  {
    hide Reachable, Filter, Resting, PermitsOk, OrderOk, FromOk, FlushOk, Conserved, LocksOk, BoundOk, EndOk;
    ReachableInv(s);
    ReachableReturns(s);
    assert ProducerOk(s.concurrent, s.producerCnt, |s.queues|, t, s.producers[t]);
    var m := Flush(t, s.producers[t].pc.n);
    assert Issued(s, m);
    forall u | 0 <= u < |s.producers| ensures Entering(s.producers[u].pc) != [m] {
      assert ProducerOk(s.concurrent, s.producerCnt, |s.queues|, u, s.producers[u]);
    }
    EverythingIsSunk(s, m);
    assert m in multiset(s.sunk);
    forall w | 0 <= w < |s.workers| ensures !s.workers[w].Fulfil? { RestingWorker(s, w); }
  }

  /** A pool in use comes to rest only when all calls have returned, the queues are empty, and every message
      has been handed to the sinks: no call is left waiting, and nothing is left lying. */
  lemma RestingPoolIsDrained(s: State)
    requires Reachable(s) && s.shutdown == Running && Resting(s) && (s.concurrent || s.capacity > 0)
    ensures forall t :: 0 <= t < |s.producers| ==> s.producers[t].pc == Idle
    ensures forall q :: 0 <= q < |s.queues| ==> s.queues[q] == []
    ensures forall m :: Issued(s, m) ==> CountIn(s.sunk, m) == 1
  {
    hide Reachable, PoolDrain.Inv, Resting, Issued, CountIn;
    ReachableInv(s);
    forall t | 0 <= t < |s.producers| ensures s.producers[t].pc == Idle { NobodyWaits(s, t); }
    forall q | 0 <= q < |s.queues| ensures s.queues[q] == [] { QueueIsEmpty(s, q); }
    forall m | Issued(s, m) ensures CountIn(s.sunk, m) == 1 { EverythingIsSunk(s, m); }
  }
}
