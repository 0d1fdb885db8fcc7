/** The asynchronous thread pools: producers hand messages to queues, workers take them to the sinks.

    One machine for two pools.  The concurrent pool (`lockfree_concurrent`) has a token and a queue for
    each worker; a thread is given a token once and for good, and a start permit lets a worker bind
    itself to the next token.  The lock pool has one bounded queue that all workers share. */
module ThreadPools {
  import opened Counting
  import opened Options

  /** The n-th call of thread t, to log or to flush, or the order to a worker to stop. */
  datatype Msg = Log(t: nat, n: nat) | Flush(t: nat, n: nat) | Terminate

  datatype ProducerPC =
    | Idle
    | FindToken(m: Msg)      // the section under p_mutex_
    | Spin(m: Msg)           // token->enqueue_lock
    | Enqueue(m: Msg)
    | Release(m: Msg)        // token->release
    | AwaitFlush(n: nat)     // future.get

  /** `calls` is history: what the thread has logged and flushed, in its order. */
  datatype Producer = Producer(pc: ProducerPC, token: Option<nat>, calls: seq<Msg>)

  datatype Worker =
    | WaitPermit             // producer_sema_.wait
    | FetchIndex             // consumer_cnt_.fetch_add
    | Bind(q: nat)           // consumer_atomic_tokens_[thread_id] = token
    | Dequeue(q: nat)
    | Process(q: nat, m: Msg)
    | Fulfil(q: nat, m: Msg) // flush_promise.set_value
    | Exited(q: nat)

  datatype Shutdown = Running | Terminating(i: nat, signalled: bool) | Joining | Gone

  /** `fulfilled` are the flushes whose promise is set.  `sunk` is history: what has been handed to the
      sinks, and when they were flushed. */
  datatype State = State(
    concurrent: bool, capacity: nat, queues: seq<seq<Msg>>, locks: seq<bool>,
    permits: nat, producerCnt: nat, consumerCnt: nat,
    producers: seq<Producer>, workers: seq<Worker>, fulfilled: set<Msg>, sunk: seq<Msg>, shutdown: Shutdown)

  datatype Action =
    | CallLog(t: nat)
    | CallFlush(t: nat)
    | RunProducer(t: nat)
    | RunWorker(w: nat)
    | BeginShutdown      // the last reference to the pool is gone: no call is under way
    | RunShutdown

  function QueueOf(s: State, p: Producer): nat { p.token.GetOr(0) }

  predicate HasRoom(s: State, q: nat) { q < |s.queues| && (s.concurrent || |s.queues[q]| < s.capacity) }

  predicate Enabled(s: State, a: Action) {
    match a
    case CallLog(t) => s.shutdown == Running && t < |s.producers| && s.producers[t].pc == Idle
    case CallFlush(t) => s.shutdown == Running && t < |s.producers| && s.producers[t].pc == Idle
    case RunProducer(t) =>
      && t < |s.producers| && s.producers[t].pc != Idle
      && |s.queues| > 0 && QueueOf(s, s.producers[t]) < |s.locks|
      && (s.producers[t].pc.Enqueue? ==> HasRoom(s, QueueOf(s, s.producers[t])))
      && (s.producers[t].pc.AwaitFlush? ==> Flush(t, s.producers[t].pc.n) in s.fulfilled)
    case RunWorker(w) =>
      && w < |s.workers|
      && match s.workers[w] {
           case WaitPermit => s.permits > 0
           case Dequeue(q) => q < |s.queues| && s.queues[q] != []
           case Exited(_) => false
           case _ => true
         }
    case BeginShutdown => s.shutdown == Running && forall t :: 0 <= t < |s.producers| ==> s.producers[t].pc == Idle
    case RunShutdown =>
      match s.shutdown {
        case Terminating(i, signalled) =>
          i < |s.workers| && (!s.concurrent || signalled) ==> HasRoom(s, if s.concurrent then i else 0)
        case Joining => forall w :: 0 <= w < |s.workers| ==> s.workers[w].Exited?
        case _ => false
      }
  }

  function Next(s: State, a: Action): State
    requires Enabled(s, a)
  {
    match a
    case CallLog(t) => Call(s, t, Log(t, |s.producers[t].calls|))
    case CallFlush(t) => Call(s, t, Flush(t, |s.producers[t].calls|))
    case RunProducer(t) => ProducerStep(s, t)
    case RunWorker(w) => WorkerStep(s, w)
    case BeginShutdown => s.(shutdown := Terminating(0, false))
    case RunShutdown => ShutdownStep(s)
  }

  function Call(s: State, t: nat, m: Msg): State
    requires t < |s.producers|
  {
    var p := s.producers[t];
    s.(producers := s.producers[t := p.(pc := if s.concurrent then FindToken(m) else Enqueue(m), calls := p.calls + [m])])
  }

  /** A flush waits for its promise; a log message is done once it is in the queue. */
  function After(m: Msg): ProducerPC { if m.Flush? then AwaitFlush(m.n) else Idle }

  function ProducerStep(s: State, t: nat): State
    requires Enabled(s, RunProducer(t))
  {
    var p := s.producers[t];
    var q := QueueOf(s, p);
    match p.pc
    case FindToken(m) =>
      if p.token.Some? then s.(producers := s.producers[t := p.(pc := Spin(m))])
      else s.(producers := s.producers[t := p.(pc := Spin(m), token := Some(s.producerCnt % |s.queues|))],
              producerCnt := s.producerCnt + 1, permits := s.permits + 1)
    case Spin(m) =>
      if s.locks[q] then s
      else s.(locks := s.locks[q := true], producers := s.producers[t := p.(pc := Enqueue(m))])
    case Enqueue(m) =>
      s.(queues := s.queues[q := s.queues[q] + [m]],
         producers := s.producers[t := p.(pc := if s.concurrent then Release(m) else After(m))])
    case Release(m) => s.(locks := s.locks[q := false], producers := s.producers[t := p.(pc := After(m))])
    case AwaitFlush(_) => s.(producers := s.producers[t := p.(pc := Idle)])
  }

  /** worker_loop_ around process_async_msg_. */
  function WorkerStep(s: State, w: nat): State
    requires Enabled(s, RunWorker(w))
  {
    match s.workers[w]
    case WaitPermit => s.(permits := s.permits - 1, workers := s.workers[w := FetchIndex])
    case FetchIndex => s.(consumerCnt := s.consumerCnt + 1, workers := s.workers[w := Bind(s.consumerCnt)])
    case Bind(q) => s.(workers := s.workers[w := Dequeue(q)])
    case Dequeue(q) =>
      s.(queues := s.queues[q := s.queues[q][1..]], workers := s.workers[w := Process(q, s.queues[q][0])])
    case Process(q, m) =>
      if m.Terminate? then s.(workers := s.workers[w := Exited(q)])
      else s.(sunk := s.sunk + [m], workers := s.workers[w := if m.Flush? then Fulfil(q, m) else Dequeue(q)])
    case Fulfil(q, m) => s.(fulfilled := s.fulfilled + {m}, workers := s.workers[w := Dequeue(q)])
  }

  /** The destructor: a start permit for each worker, an order to stop in each queue, or as many in the
      one queue, and then it joins the workers. */
  function ShutdownStep(s: State): State
    requires Enabled(s, RunShutdown)
  {
    match s.shutdown
    case Terminating(i, signalled) =>
      if i >= |s.workers| then s.(shutdown := Joining)
      else if s.concurrent && !signalled then s.(permits := s.permits + 1, shutdown := Terminating(i, true))
      else var q := if s.concurrent then i else 0;
           s.(queues := s.queues[q := s.queues[q] + [Terminate]], shutdown := Terminating(i + 1, false))
    case Joining => s.(shutdown := Gone)
  }

  ghost predicate Init(s: State) {
    && 0 < |s.workers| <= 1024 && s.shutdown == Running && s.sunk == []
    && |s.queues| == |s.locks| == (if s.concurrent then |s.workers| else 1)
    && (forall q :: 0 <= q < |s.queues| ==> s.queues[q] == [] && !s.locks[q])
    && s.permits == s.producerCnt == s.consumerCnt == 0
    && s.fulfilled == {}
    && (forall t :: 0 <= t < |s.producers| ==> s.producers[t] == Producer(Idle, if s.concurrent then None else Some(0), []))
    && (forall w :: 0 <= w < |s.workers| ==> s.workers[w] == if s.concurrent then WaitPermit else Dequeue(0))
  }
}
