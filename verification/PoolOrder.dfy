/** When a thread pool keeps the order of a thread's calls, and when its flush is a barrier: exactly if no
    queue has two workers, or if no message can enter at all. */
module PoolOrder {
  import opened Options
  import opened ThreadPools
  import opened PoolSafety
  import opened PoolDrain
  import opened PoolFlush

  ghost predicate ReachableFrom(s0: State, s: State) { exists run :: IsRun(run) && run[0] == s0 && run[|run| - 1] == s }

  /** What has been handed to the sinks is, thread by thread, a first part of the thread's calls. */
  ghost predicate InOrder(s: State) {
    forall t :: 0 <= t < |s.producers| ==> Filter(s.sunk, t) <= s.producers[t].calls
  }

  ghost predicate SameShape(s0: State, s: State) {
    && s.concurrent == s0.concurrent && s.capacity == s0.capacity
    && |s.producers| == |s0.producers| && |s.workers| == |s0.workers|
  }

  /** A lock pool without room for a message never takes one. */
  ghost predicate Idles(s: State) {
    && !s.concurrent && s.capacity == 0 && |s.queues| == 1 && s.queues[0] == [] && s.sunk == [] && s.fulfilled == {}
    && forall w :: 0 <= w < |s.workers| ==> s.workers[w] == Dequeue(0)
  }

  lemma NextShape(s: State, a: Action)
    requires Enabled(s, a)
    ensures SameShape(s, Next(s, a))
    ensures Idles(s) && |s.workers| > 0 ==> Idles(Next(s, a))
  {
  }

  lemma {:induction false} RunShape(run: seq<State>, i: nat)
    requires IsRun(run) && i < |run|
    ensures SameShape(run[0], run[i])
    ensures !run[0].concurrent && run[0].capacity == 0 ==> Idles(run[i])
  {
    if i > 0 {
      RunShape(run, i - 1);
      assert Leads(run[i - 1], run[i - 1 + 1]);
      var a :| Moves(run[i - 1], a, run[i]);
      NextShape(run[i - 1], a);
    }
  }

  /** A lock pool in which nothing has changed but its queue, its first thread, its first two workers,
      and what the sinks have. */
  ghost function Stage(s0: State, pc: ProducerPC, calls: seq<Msg>, queue: seq<Msg>, w0: Worker, w1: Worker, sunk: seq<Msg>): State
    requires |s0.producers| >= 1 && |s0.workers| >= 2
  {
    s0.(queues := [queue], producers := s0.producers[0 := Producer(pc, Some(0), calls)],
       workers := s0.workers[0 := w0][1 := w1], sunk := sunk)
  }

  ghost predicate TwoWorkers(s0: State) {
    Init(s0) && !s0.concurrent && s0.capacity > 0 && |s0.producers| >= 1 && |s0.workers| >= 2
  }

  lemma FirstCall(s0: State)
    requires TwoWorkers(s0)
    ensures var m, w := Log(0, 0), Dequeue(0);
      && s0 == Stage(s0, Idle, [], [], w, w, [])
      && Moves(s0, CallLog(0), Stage(s0, Enqueue(m), [m], [], w, w, []))
      && Moves(Stage(s0, Enqueue(m), [m], [], w, w, []), RunProducer(0), Stage(s0, Idle, [m], [m], w, w, []))
      && Moves(Stage(s0, Idle, [m], [m], w, w, []), RunWorker(0), Stage(s0, Idle, [m], [], Process(0, m), w, []))
  {
    var m, w := Log(0, 0), Dequeue(0);
    assert s0.queues == [[]];
    assert s0 == Stage(s0, Idle, [], [], w, w, []);
    assert [] + [m] == [m] && [m][1..] == [];
    assert s0.workers[0 := w][1 := w][0 := Process(0, m)] == s0.workers[0 := Process(0, m)][1 := w];
  }

  lemma SecondCall(s0: State)
    requires TwoWorkers(s0)
    ensures var m0, m1, w0, w1 := Log(0, 0), Log(0, 1), Process(0, Log(0, 0)), Dequeue(0);
      && Moves(Stage(s0, Idle, [m0], [], w0, w1, []), CallLog(0), Stage(s0, Enqueue(m1), [m0, m1], [], w0, w1, []))
      && Moves(Stage(s0, Enqueue(m1), [m0, m1], [], w0, w1, []), RunProducer(0), Stage(s0, Idle, [m0, m1], [m1], w0, w1, []))
  {
    var m0, m1 := Log(0, 0), Log(0, 1);
    assert [m0] + [m1] == [m0, m1] && [] + [m1] == [m1];
  }

  lemma SecondTake(s0: State)
    requires TwoWorkers(s0)
    ensures var m0, m1, w0, w1 := Log(0, 0), Log(0, 1), Process(0, Log(0, 0)), Dequeue(0);
      && Moves(Stage(s0, Idle, [m0, m1], [m1], w0, w1, []), RunWorker(1), Stage(s0, Idle, [m0, m1], [], w0, Process(0, m1), []))
      && Moves(Stage(s0, Idle, [m0, m1], [], w0, Process(0, m1), []), RunWorker(1), Stage(s0, Idle, [m0, m1], [], w0, w1, [m1]))
  {
    var m1 := Log(0, 1);
    assert [m1][1..] == [] && [] + [m1] == [m1];
  }

  /** With two workers on one queue the order can be lost: the second call's message overtakes the
      first while that is in a worker's hands. */
  lemma TwoWorkersCanReorder(s0: State)
    requires TwoWorkers(s0)
    ensures exists s :: ReachableFrom(s0, s) && !InOrder(s)
  {
    hide Moves, Stage;
    var m0, m1, w := Log(0, 0), Log(0, 1), Dequeue(0);
    FirstCall(s0);
    SecondCall(s0);
    SecondTake(s0);
    var last := Stage(s0, Idle, [m0, m1], [], Process(0, m0), w, [m1]);
    var run := [s0, Stage(s0, Enqueue(m0), [m0], [], w, w, []), Stage(s0, Idle, [m0], [m0], w, w, []),
                Stage(s0, Idle, [m0], [], Process(0, m0), w, []), Stage(s0, Enqueue(m1), [m0, m1], [], Process(0, m0), w, []),
                Stage(s0, Idle, [m0, m1], [m1], Process(0, m0), w, []),
                Stage(s0, Idle, [m0, m1], [], Process(0, m0), Process(0, m1), []), last];
    assert IsRun(run);
    assert run[|run| - 1] == last;
    Overtaken(s0);
  }

  lemma Overtaken(s0: State)
    requires TwoWorkers(s0)
    ensures !InOrder(Stage(s0, Idle, [Log(0, 0), Log(0, 1)], [], Process(0, Log(0, 0)), Dequeue(0), [Log(0, 1)]))
  {
    FilterOne(Log(0, 1), 0);
  }

  /** A pool keeps every thread's order in all its runs exactly when no queue has two workers, or when
      it can take no message at all: it has no thread that logs, or its shared queue has no room. */
  lemma OrderIsKeptExactlyWithOneWorker(s0: State)
    requires Init(s0)
    ensures (forall s :: ReachableFrom(s0, s) ==> InOrder(s))
            <==> Single(s0) || s0.producers == [] || s0.capacity == 0
  {
    hide Init, Filter, Leads, Enabled, Next;
    if Single(s0) || s0.producers == [] || s0.capacity == 0 {
      forall s | ReachableFrom(s0, s) ensures InOrder(s) {
        var run :| IsRun(run) && run[0] == s0 && run[|run| - 1] == s;
        RunShape(run, |run| - 1);
        if Single(s0) {
          forall t | 0 <= t < |s.producers| ensures Filter(s.sunk, t) <= s.producers[t].calls { SinksKeepThreadOrder(s, t); }
        } else if s0.capacity == 0 {
          forall t | 0 <= t < |s.producers| ensures Filter(s.sunk, t) == [] { FilterNone(s.sunk, t); }
        }
      }
    } else {
      AtLeastOne(s0);
      TwoWorkersCanReorder(s0);
    }
  }

  lemma AtLeastOne(s0: State)
    requires Init(s0)
    ensures s0.workers != []
  {
  }

  // ----- flush -----

  /** Of every flush that has returned: what its thread called before it, and the flush itself, has been
      handed over in that order. */
  ghost predicate BarrierHolds(s: State) {
    forall t: nat, j: nat :: Returned(s, t, j) ==> s.producers[t].calls[..j + 1] <= Filter(s.sunk, t)
  }

  lemma FlushCall(s0: State)
    requires TwoWorkers(s0)
    ensures var m, f, w0, w1 := Log(0, 0), Flush(0, 1), Process(0, Log(0, 0)), Dequeue(0);
      && Moves(Stage(s0, Idle, [m], [], w0, w1, []), CallFlush(0), Stage(s0, Enqueue(f), [m, f], [], w0, w1, []))
      && Moves(Stage(s0, Enqueue(f), [m, f], [], w0, w1, []), RunProducer(0), Stage(s0, AwaitFlush(1), [m, f], [f], w0, w1, []))
  {
    var m, f := Log(0, 0), Flush(0, 1);
    assert [m] + [f] == [m, f] && [] + [f] == [f];
  }

  lemma FlushTake(s0: State)
    requires TwoWorkers(s0)
    ensures var m, f, w0, w1 := Log(0, 0), Flush(0, 1), Process(0, Log(0, 0)), Dequeue(0);
      && Moves(Stage(s0, AwaitFlush(1), [m, f], [f], w0, w1, []), RunWorker(1), Stage(s0, AwaitFlush(1), [m, f], [], w0, Process(0, f), []))
      && Moves(Stage(s0, AwaitFlush(1), [m, f], [], w0, Process(0, f), []), RunWorker(1), Stage(s0, AwaitFlush(1), [m, f], [], w0, Fulfil(0, f), [f]))
  {
    var f := Flush(0, 1);
    assert [f][1..] == [] && [] + [f] == [f];
  }

  ghost function Flushed(s0: State, pc: ProducerPC): State
    requires TwoWorkers(s0)
  {
    var m, f := Log(0, 0), Flush(0, 1);
    Stage(s0, pc, [m, f], [], Process(0, m), Dequeue(0), [f]).(fulfilled := {f})
  }

  lemma FlushReturns(s0: State)
    requires TwoWorkers(s0)
    ensures Moves(Stage(s0, AwaitFlush(1), [Log(0, 0), Flush(0, 1)], [], Process(0, Log(0, 0)), Fulfil(0, Flush(0, 1)), [Flush(0, 1)]),
                  RunWorker(1), Flushed(s0, AwaitFlush(1)))
    ensures Moves(Flushed(s0, AwaitFlush(1)), RunProducer(0), Flushed(s0, Idle))
  {
    assert {} + {Flush(0, 1)} == {Flush(0, 1)};
  }

  lemma FlushedTooSoon(s0: State)
    requires TwoWorkers(s0)
    ensures !BarrierHolds(Flushed(s0, Idle))
  {
    FilterOne(Flush(0, 1), 0);
    var s := Flushed(s0, Idle);
    assert Returned(s, 0, 1);
    assert |Filter(s.sunk, 0)| == 1 && |s.producers[0].calls[..2]| == 2;
  }

  /** With two workers on one queue a flush can return before what was logged ahead of it. */
  lemma FlushCanOvertake(s0: State)
    requires TwoWorkers(s0)
    ensures exists s :: ReachableFrom(s0, s) && !BarrierHolds(s)
  {
    hide Moves, Stage, Flushed, BarrierHolds;
    var m, f, w := Log(0, 0), Flush(0, 1), Dequeue(0);
    FirstCall(s0);
    FlushCall(s0);
    FlushTake(s0);
    FlushReturns(s0);
    var run := [s0, Stage(s0, Enqueue(m), [m], [], w, w, []), Stage(s0, Idle, [m], [m], w, w, []),
                Stage(s0, Idle, [m], [], Process(0, m), w, []), Stage(s0, Enqueue(f), [m, f], [], Process(0, m), w, []),
                Stage(s0, AwaitFlush(1), [m, f], [f], Process(0, m), w, []),
                Stage(s0, AwaitFlush(1), [m, f], [], Process(0, m), Process(0, f), []),
                Stage(s0, AwaitFlush(1), [m, f], [], Process(0, m), Fulfil(0, f), [f]), Flushed(s0, AwaitFlush(1)), Flushed(s0, Idle)];
    assert IsRun(run);
    assert run[|run| - 1] == Flushed(s0, Idle);
    FlushedTooSoon(s0);
  }

  /** In all runs of a pool flush is a barrier exactly when no queue has two workers, or nothing can enter. */
  lemma BarrierHoldsExactlyWithOneWorker(s0: State)
    requires Init(s0)
    ensures (forall s :: ReachableFrom(s0, s) ==> BarrierHolds(s))
            <==> Single(s0) || s0.producers == [] || s0.capacity == 0
  {
    hide Init, Filter, Leads, Next;
    if Single(s0) || s0.producers == [] || s0.capacity == 0 {
      forall s | ReachableFrom(s0, s) ensures BarrierHolds(s) {
        var run :| IsRun(run) && run[0] == s0 && run[|run| - 1] == s;
        RunShape(run, |run| - 1);
        forall t: nat, j: nat | Returned(s, t, j) ensures s.producers[t].calls[..j + 1] <= Filter(s.sunk, t) {
          if Single(s0) { FlushIsABarrier(s, t, j); } else { FlushWaits(s, t, j); }
        }
      }
    } else {
      AtLeastOne(s0);
      FlushCanOvertake(s0);
    }
  }
}
