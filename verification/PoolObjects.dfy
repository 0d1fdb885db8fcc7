/** A thread pool as an object updated in place: each method is the next step of one of its threads. */
module PoolObjects {
  import opened Options
  import opened ThreadPools
  import PoolDrain

  class ThreadPool {
    const concurrent: bool
    const msgQSize: nat
    var queues: seq<seq<Msg>>
    var enqueuing: seq<bool>
    var producerSema: nat
    var producerCnt: nat
    var consumerCnt: nat
    var callers: seq<Producer>
    var threads: seq<Worker>
    var promises: set<Msg>
    var sinks: seq<Msg>
    var destructor: Shutdown

    function Snapshot(): State
      reads this
    {
      State(concurrent, msgQSize, queues, enqueuing, producerSema, producerCnt, consumerCnt, callers, threads,
            promises, sinks, destructor)
    }

    ghost predicate Valid()
      reads this
    {
      PoolDrain.Inv(Snapshot())
    }

    constructor (concurrent: bool, msgQSize: nat, threadsNum: nat, callerCount: nat)
      requires 0 < threadsNum <= 1024
      ensures Init(Snapshot()) && Valid() && |threads| == threadsNum && |callers| == callerCount
    {
      this.concurrent, this.msgQSize := concurrent, msgQSize;
      var queueCount := if concurrent then threadsNum else 1;
      queues, enqueuing := seq(queueCount, _ => []), seq(queueCount, _ => false);
      producerSema, producerCnt, consumerCnt := 0, 0, 0;
      callers := seq(callerCount, _ => Producer(Idle, if concurrent then None else Some(0), []));
      threads := seq(threadsNum, _ => if concurrent then WaitPermit else Dequeue(0));
      promises, sinks, destructor := {}, [], Running;
      new;
      PoolDrain.RunInv([Snapshot()], 0);
    }

    // ----- a thread that logs -----

    method EnqueueLog(t: nat)
      requires Valid() && Enabled(Snapshot(), CallLog(t))
      modifies this
      ensures Snapshot() == Next(old(Snapshot()), CallLog(t)) && Valid()
    {
      hide PoolDrain.Inv;
      PoolDrain.NextInv(Snapshot(), CallLog(t));
      var m := Log(t, |callers[t].calls|);
      callers := callers[t := callers[t].(pc := if concurrent then FindToken(m) else Enqueue(m), calls := callers[t].calls + [m])];
    }

    method EnqueueFlush(t: nat)
      requires Valid() && Enabled(Snapshot(), CallFlush(t))
      modifies this
      ensures Snapshot() == Next(old(Snapshot()), CallFlush(t)) && Valid()
    {
      hide PoolDrain.Inv;
      PoolDrain.NextInv(Snapshot(), CallFlush(t));
      var m := Flush(t, |callers[t].calls|);
      callers := callers[t := callers[t].(pc := if concurrent then FindToken(m) else Enqueue(m), calls := callers[t].calls + [m])];
    }

    /** The section under p_mutex_: the thread's token, or the next one and a permit for its worker. */
    method RunFindToken(t: nat)
      requires Valid() && Enabled(Snapshot(), RunProducer(t)) && callers[t].pc.FindToken?
      modifies this
      ensures Snapshot() == Next(old(Snapshot()), RunProducer(t)) && Valid()
    {
      hide PoolDrain.Inv;
      PoolDrain.NextInv(Snapshot(), RunProducer(t));
      var p := callers[t];
      if p.token == None {
        var cnt := producerCnt;
        producerCnt := cnt + 1;
        p := p.(token := Some(cnt % |queues|));
        producerSema := producerSema + 1;
      }
      callers := callers[t := p.(pc := Spin(p.pc.m))];
    }

    /** compare_exchange on enqueuing_, and the store that gives it back. */
    method RunLock(t: nat)
      requires Valid() && Enabled(Snapshot(), RunProducer(t)) && (callers[t].pc.Spin? || callers[t].pc.Release?)
      modifies this
      ensures Snapshot() == Next(old(Snapshot()), RunProducer(t)) && Valid()
    {
      hide PoolDrain.Inv;
      PoolDrain.NextInv(Snapshot(), RunProducer(t));
      var p := callers[t];
      var token := p.token.GetOr(0);
      if p.pc.Release? {
        enqueuing := enqueuing[token := false];
        callers := callers[t := p.(pc := After(p.pc.m))];
      } else if !enqueuing[token] {
        enqueuing := enqueuing[token := true];
        callers := callers[t := p.(pc := Enqueue(p.pc.m))];
      }
    }

    method RunEnqueue(t: nat)
      requires Valid() && Enabled(Snapshot(), RunProducer(t)) && callers[t].pc.Enqueue?
      modifies this
      ensures Snapshot() == Next(old(Snapshot()), RunProducer(t)) && Valid()
    {
      hide PoolDrain.Inv;
      PoolDrain.NextInv(Snapshot(), RunProducer(t));
      var p := callers[t];
      var q := p.token.GetOr(0);
      queues := queues[q := queues[q] + [p.pc.m]];
      callers := callers[t := p.(pc := if concurrent then Release(p.pc.m) else After(p.pc.m))];
    }

    /** future.get returns: all the thread has logged is at the sinks. */
    method RunAwaitFlush(t: nat)
      requires Valid() && Enabled(Snapshot(), RunProducer(t)) && callers[t].pc.AwaitFlush?
      modifies this
      ensures Snapshot() == Next(old(Snapshot()), RunProducer(t)) && Valid()
    {
      hide PoolDrain.Inv;
      PoolDrain.NextInv(Snapshot(), RunProducer(t));
      callers := callers[t := callers[t].(pc := Idle)];
    }

    // ----- a worker -----

    method RunStart(w: nat)
      requires Valid() && Enabled(Snapshot(), RunWorker(w))
      requires threads[w].WaitPermit? || threads[w].FetchIndex? || threads[w].Bind?
      modifies this
      ensures Snapshot() == Next(old(Snapshot()), RunWorker(w)) && Valid()
    {
      hide PoolDrain.Inv;
      PoolDrain.NextInv(Snapshot(), RunWorker(w));
      if threads[w].WaitPermit? {
        producerSema := producerSema - 1;
        threads := threads[w := FetchIndex];
      } else if threads[w].FetchIndex? {
        var idx := consumerCnt;
        consumerCnt := idx + 1;
        threads := threads[w := Bind(idx)];
      } else {
        threads := threads[w := Dequeue(threads[w].q)];
      }
    }

    method RunDequeue(w: nat)
      requires Valid() && Enabled(Snapshot(), RunWorker(w)) && threads[w].Dequeue?
      modifies this
      ensures Snapshot() == Next(old(Snapshot()), RunWorker(w)) && Valid()
    {
      hide PoolDrain.Inv;
      PoolDrain.NextInv(Snapshot(), RunWorker(w));
      var q := threads[w].q;
      var msgPopped := queues[q][0];
      queues := queues[q := queues[q][1..]];
      threads := threads[w := Process(q, msgPopped)];
    }

    /** The switch of process_async_msg_; false once the worker is to stop. */
    method RunProcess(w: nat) returns (goOn: bool)
      requires Valid() && Enabled(Snapshot(), RunWorker(w)) && threads[w].Process?
      modifies this
      ensures Snapshot() == Next(old(Snapshot()), RunWorker(w)) && Valid()
      ensures goOn <==> !threads[w].Exited?
    {
      hide PoolDrain.Inv;
      PoolDrain.NextInv(Snapshot(), RunWorker(w));
      var Process(q, msgPopped) := threads[w];
      goOn := true;
      match msgPopped {
        case Log(_, _) =>
          sinks := sinks + [msgPopped];
          threads := threads[w := Dequeue(q)];
        case Flush(_, _) =>
          sinks := sinks + [msgPopped];
          threads := threads[w := Fulfil(q, msgPopped)];
        case Terminate =>
          threads := threads[w := Exited(q)];
          goOn := false;
      }
    }

    method RunFulfil(w: nat)
      requires Valid() && Enabled(Snapshot(), RunWorker(w)) && threads[w].Fulfil?
      modifies this
      ensures Snapshot() == Next(old(Snapshot()), RunWorker(w)) && Valid()
    {
      hide PoolDrain.Inv;
      PoolDrain.NextInv(Snapshot(), RunWorker(w));
      promises := promises + {threads[w].m};
      threads := threads[w := Dequeue(threads[w].q)];
    }

    // ----- the destructor -----

    method Destroy()
      requires Valid() && Enabled(Snapshot(), BeginShutdown)
      modifies this
      ensures Snapshot() == Next(old(Snapshot()), BeginShutdown) && Valid()
    {
      hide PoolDrain.Inv;
      PoolDrain.NextInv(Snapshot(), BeginShutdown);
      destructor := Terminating(0, false);
    }

    method RunDestructor()
      requires Valid() && Enabled(Snapshot(), RunShutdown)
      modifies this
      ensures Snapshot() == Next(old(Snapshot()), RunShutdown) && Valid()
    {
      hide PoolDrain.Inv;
      PoolDrain.NextInv(Snapshot(), RunShutdown);
      match destructor {
        case Terminating(i, signalled) =>
          if i >= |threads| {
            destructor := Joining;
          } else if concurrent && !signalled {
            producerSema := producerSema + 1;
            destructor := Terminating(i, true);
          } else {
            var q := if concurrent then i else 0;
            queues := queues[q := queues[q] + [Terminate]];
            destructor := Terminating(i + 1, false);
          }
        case Joining => destructor := Gone;
      }
    }
  }
}
