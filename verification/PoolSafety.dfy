/** What every run of a thread pool guarantees: a thread's messages reach the sinks in the order of its
    calls, a flush is a barrier, and shutting down drains the queues. */
module PoolSafety {
  import opened Counting
  import opened Options
  import opened ThreadPools

  // ----- where the messages are -----

  predicate Of(m: Msg, t: nat) { !m.Terminate? && m.t == t }

  /** The messages of thread t, in order. */
  function Filter(s: seq<Msg>, t: nat): seq<Msg> {
    if s == [] then [] else (if Of(s[0], t) then [s[0]] else []) + Filter(s[1..], t)
  }

  lemma {:induction false} FilterAppend(a: seq<Msg>, b: seq<Msg>, t: nat)
    ensures Filter(a + b, t) == Filter(a, t) + Filter(b, t)
  {
    if a == [] {
      assert a + b == b;
    } else {
      FilterAppend(a[1..], b, t);
      assert (a + b)[1..] == a[1..] + b && (a + b)[0] == a[0];
      var head := if Of(a[0], t) then [a[0]] else [];
      assert head + (Filter(a[1..], t) + Filter(b, t)) == (head + Filter(a[1..], t)) + Filter(b, t);
    }
  }

  lemma FilterOne(m: Msg, t: nat)
    ensures Filter([m], t) == if Of(m, t) then [m] else []
  {
    assert [m][1..] == [];
  }

  lemma {:induction false} FilterNone(s: seq<Msg>, t: nat)
    requires forall k :: 0 <= k < |s| ==> !Of(s[k], t)
    ensures Filter(s, t) == []
  {
    if s != [] {
      forall k | 0 <= k < |s[1..]| ensures !Of(s[1..][k], t) { assert s[1..][k] == s[k + 1]; }
      FilterNone(s[1..], t);
    }
  }

  /** The message a thread is bringing to its queue. */
  function Entering(p: ProducerPC): seq<Msg> { if p.FindToken? || p.Spin? || p.Enqueue? then [p.m] else [] }

  // ----- the invariant -----

  function BoundTo(w: Worker): Option<nat> {
    match w
    case WaitPermit => None
    case FetchIndex => None
    case Bind(q) => Some(q)
    case Dequeue(q) => Some(q)
    case Process(q, _) => Some(q)
    case Fulfil(q, _) => Some(q)
    case Exited(q) => Some(q)
  }

  /** A queue has at most one worker. */
  predicate Single(s: State) { s.concurrent || |s.workers| == 1 }

  function PastPermit(w: Worker): int { if w.WaitPermit? then 0 else 1 }
  function PastFetch(w: Worker): int { if BoundTo(w).Some? then 1 else 0 }
  ghost function PastPermitFn(): Worker -> int { w => PastPermit(w) }
  ghost function PastFetchFn(): Worker -> int { w => PastFetch(w) }

  /** Permits the destructor has given. */
  function Signals(sh: Shutdown, workers: int): int {
    match sh
    case Running => 0
    case Terminating(i, signalled) => if signalled then i + 1 else i
    case _ => workers
  }

  ghost predicate PermitsOk(s: State) {
    s.concurrent ==>
      && s.producerCnt + Signals(s.shutdown, |s.workers|) == s.permits + Sum(s.workers, PastPermitFn())
      && s.consumerCnt == Sum(s.workers, PastFetchFn())
  }

  ghost predicate BoundOk(concurrent: bool, consumerCnt: nat, queues: nat, workers: seq<Worker>) {
    && (forall w :: 0 <= w < |workers| && BoundTo(workers[w]).Some? ==>
          BoundTo(workers[w]).value < queues && (concurrent ==> BoundTo(workers[w]).value < consumerCnt))
    && (!concurrent ==> forall w :: 0 <= w < |workers| ==> BoundTo(workers[w]).Some?)
    && (concurrent || |workers| == 1 ==>
          forall w, v :: 0 <= w < v < |workers| && BoundTo(workers[w]).Some? ==> BoundTo(workers[w]) != BoundTo(workers[v]))
  }

  ghost predicate ProducerOk(concurrent: bool, producerCnt: nat, queues: nat, t: nat, p: Producer) {
    && (forall j :: 0 <= j < |p.calls| ==> p.calls[j] == Log(t, j) || p.calls[j] == Flush(t, j))
    && (p.token.Some? ==> p.token.value < queues && (concurrent ==> p.token.value < producerCnt))
    && (p.token.None? ==> concurrent && (p.pc == Idle || p.pc.FindToken?))
    && (!concurrent ==> !p.pc.FindToken? && !p.pc.Spin? && !p.pc.Release?)
    && (p.pc.FindToken? || p.pc.Spin? || p.pc.Enqueue? || p.pc.Release? ==> p.calls != [] && p.pc.m == p.calls[|p.calls| - 1])
    && (p.pc.AwaitFlush? ==> p.calls != [] && p.calls[|p.calls| - 1] == Flush(t, p.pc.n))
  }

  ghost predicate ProducersOk(s: State) {
    forall t :: 0 <= t < |s.producers| ==> ProducerOk(s.concurrent, s.producerCnt, |s.queues|, t, s.producers[t])
  }

  /** A message in queue q, or in the hands of its worker, is of a thread with that token. */
  predicate Belongs(m: Msg, q: nat, producers: seq<Producer>) {
    m.Terminate? || (m.t < |producers| && producers[m.t].token == Some(q))
  }

  ghost predicate FromOk(s: State) {
    && (forall q, k :: 0 <= q < |s.queues| && 0 <= k < |s.queues[q]| ==> Belongs(s.queues[q][k], q, s.producers))
    && (forall w :: 0 <= w < |s.workers| && s.workers[w].Process? ==> Belongs(s.workers[w].m, s.workers[w].q, s.producers))
  }

  /** On the way from its thread to the sinks, messages keep the order of the calls. */
  ghost predicate Line(sunk: seq<Msg>, hand: seq<Msg>, queue: seq<Msg>, p: Producer, t: nat) {
    Filter(sunk, t) + Filter(hand, t) + Filter(queue, t) + Entering(p.pc) == p.calls
  }

  predicate Busy(workers: seq<Worker>, q: nat) { exists w :: 0 <= w < |workers| && workers[w].Process? && workers[w].q == q }

  ghost predicate OrderAt(s: State, t: nat)
    requires t < |s.producers|
  {
    var p := s.producers[t];
    if p.token.None? then Filter(s.sunk, t) == [] && Entering(p.pc) == p.calls
    else p.token.value < |s.queues|
         && (forall w :: 0 <= w < |s.workers| && s.workers[w].Process? && s.workers[w].q == p.token.value ==>
               Line(s.sunk, [s.workers[w].m], s.queues[p.token.value], p, t))
         && (!Busy(s.workers, p.token.value) ==> Line(s.sunk, [], s.queues[p.token.value], p, t))
  }

  ghost predicate OrderOk(s: State) {
    Single(s) ==> forall t :: 0 <= t < |s.producers| ==> OrderAt(s, t)
  }

  ghost predicate FlushOk(s: State) {
    && (forall m :: m in s.fulfilled ==> m in s.sunk)
    && (forall w :: 0 <= w < |s.workers| && s.workers[w].Fulfil? ==> s.workers[w].m in s.sunk)
  }

  ghost predicate Shape(s: State) {
    && |s.workers| > 0 && |s.queues| == |s.locks| == (if s.concurrent then |s.workers| else 1)
    && (s.shutdown.Terminating? ==> s.shutdown.i <= |s.workers| && (s.shutdown.signalled ==> s.shutdown.i < |s.workers|))
    && (s.shutdown != Running ==> forall t :: 0 <= t < |s.producers| ==> s.producers[t].pc == Idle)
  }

  ghost predicate Inv(s: State) {
    && Shape(s) && PermitsOk(s) && BoundOk(s.concurrent, s.consumerCnt, |s.queues|, s.workers)
    && ProducersOk(s) && FromOk(s) && OrderOk(s) && FlushOk(s)
  }

  lemma InitInv(s: State)
    requires Init(s)
    ensures Inv(s)
  {
    if s.concurrent {
      SumZero(s.workers, PastPermitFn());
      SumZero(s.workers, PastFetchFn());
    }
    assert OrderOk(s);
  }

  // ----- producers -----

  /** A call enters the line at its end. */
  lemma CallKeeps(s: State, t: nat, m: Msg)
    requires Inv(s) && s.shutdown == Running && t < |s.producers| && s.producers[t].pc == Idle
    requires m == Log(t, |s.producers[t].calls|) || m == Flush(t, |s.producers[t].calls|)
    ensures Inv(Call(s, t, m))
  {
    hide Filter;
    var s' := Call(s, t, m);
    assert OrderOk(s') by {
      if Single(s) {
        forall u | 0 <= u < |s'.producers| ensures OrderAt(s', u) { assert OrderAt(s, u); }
      }
    }
  }

  /** A thread's first call gives it the next token, and a worker the permit to bind itself to it. */
  lemma FindTokenKeeps(s: State, t: nat)
    requires Inv(s) && Enabled(s, RunProducer(t)) && s.producers[t].pc.FindToken?
    ensures Inv(ProducerStep(s, t))
  {
    hide Filter;
    var s' := ProducerStep(s, t);
    assert ProducersOk(s') by { ModBelow(s.producerCnt, |s.queues|); }
    assert OrderOk(s') by {
      if Single(s) {
        forall u | 0 <= u < |s'.producers| ensures OrderAt(s', u) {
          assert OrderAt(s, u);
          if u == t && s.producers[t].token.None? { NewToken(s, s', t); }
        }
      }
    }
  }

  lemma ModBelow(c: nat, n: nat)
    requires n > 0
    ensures 0 <= c % n < n && c % n <= c
  {
  }

  lemma NewToken(s: State, s': State, t: nat)
    requires Inv(s) && Enabled(s, RunProducer(t)) && s.producers[t].pc.FindToken? && s' == ProducerStep(s, t)
    requires s.producers[t].token.None? && OrderAt(s, t)
    ensures OrderAt(s', t)
  {
    hide Filter;
    var q := s'.producers[t].token.value;
    forall k | 0 <= k < |s.queues[q]| ensures !Of(s.queues[q][k], t) { assert Belongs(s.queues[q][k], q, s.producers); }
    FilterNone(s.queues[q], t);
    FilterNone([], t);
    forall w | 0 <= w < |s.workers| && s.workers[w].Process? && s.workers[w].q == q
      ensures Filter([s.workers[w].m], t) == []
    {
      assert Belongs(s.workers[w].m, q, s.producers);
      FilterOne(s.workers[w].m, t);
    }
  }

  /** Steps of a producer that move no message. */
  lemma SpinKeeps(s: State, t: nat)
    requires Inv(s) && Enabled(s, RunProducer(t))
    requires s.producers[t].pc.Spin? || s.producers[t].pc.Release? || s.producers[t].pc.AwaitFlush?
    ensures Inv(ProducerStep(s, t))
  {
    hide Filter, OrderAt, OrderOk;
    var s' := ProducerStep(s, t);
    assert ProducerOk(s.concurrent, s.producerCnt, |s.queues|, t, s.producers[t]);
    PcOrder(s, s', t);
  }

  lemma PcOrder(s: State, s': State, t: nat)
    requires OrderOk(s) && t < |s.producers| == |s'.producers|
    requires s'.producers == s.producers[t := s.producers[t].(pc := s'.producers[t].pc)]
    requires Entering(s'.producers[t].pc) == Entering(s.producers[t].pc)
    requires s'.queues == s.queues && s'.workers == s.workers && s'.sunk == s.sunk && s'.concurrent == s.concurrent
    ensures OrderOk(s')
  {
    hide Filter;
    if Single(s) {
      forall u | 0 <= u < |s'.producers| ensures OrderAt(s', u) { assert OrderAt(s, u); }
    }
  }

  lemma EnqueueOrder(s: State, s': State, t: nat, q: nat, m: Msg, u: nat)
    requires u < |s.producers| && OrderAt(s, u) && t < |s.producers| && s.producers[t].token == Some(q) && q < |s.queues|
    requires s.producers[t].pc == ThreadPools.Enqueue(m) && Of(m, t)
    requires s'.queues == s.queues[q := s.queues[q] + [m]] && s'.workers == s.workers && s'.sunk == s.sunk
    requires |s'.producers| == |s.producers| && s'.producers == s.producers[t := s.producers[t].(pc := s'.producers[t].pc)]
    requires Entering(s'.producers[t].pc) == []
    ensures OrderAt(s', u)
  {
    hide Filter;
    FilterAppend(s.queues[q], [m], u);
    FilterOne(m, u);
    if s.producers[u].token.Some? {
      EnqueueLine(s, s', t, q, m, u, []);
      forall w | 0 <= w < |s.workers| && s.workers[w].Process? && s.workers[w].q == s.producers[u].token.value
        ensures Line(s'.sunk, [s.workers[w].m], s'.queues[s.producers[u].token.value], s'.producers[u], u)
      {
        EnqueueLine(s, s', t, q, m, u, [s.workers[w].m]);
      }
    }
  }

  lemma EnqueueLine(s: State, s': State, t: nat, q: nat, m: Msg, u: nat, hand: seq<Msg>)
    requires u < |s.producers| && t < |s.producers| && s.producers[t].token == Some(q) && q < |s.queues|
    requires s.producers[u].token.Some? && s.producers[u].token.value < |s.queues|
    requires s.producers[t].pc == ThreadPools.Enqueue(m) && Of(m, t)
    requires s'.queues == s.queues[q := s.queues[q] + [m]] && s'.sunk == s.sunk
    requires |s'.producers| == |s.producers| && s'.producers == s.producers[t := s.producers[t].(pc := s'.producers[t].pc)]
    requires Entering(s'.producers[t].pc) == []
    requires Filter(s.queues[q] + [m], u) == Filter(s.queues[q], u) + if Of(m, u) then [m] else []
    ensures Line(s.sunk, hand, s.queues[s.producers[u].token.value], s.producers[u], u)
            ==> Line(s'.sunk, hand, s'.queues[s.producers[u].token.value], s'.producers[u], u)
  {
    hide Filter;
  }

  lemma EnqueueKeeps(s: State, t: nat)
    requires Inv(s) && Enabled(s, RunProducer(t)) && s.producers[t].pc.Enqueue?
    ensures Inv(ProducerStep(s, t))
  {
    hide Filter, OrderAt;
    var s' := ProducerStep(s, t);
    assert ProducerOk(s.concurrent, s.producerCnt, |s.queues|, t, s.producers[t]);
    assert OrderOk(s') by {
      hide PermitsOk, BoundOk, FromOk, FlushOk;
      if Single(s) {
        forall u | 0 <= u < |s'.producers| ensures OrderAt(s', u) {
          assert OrderAt(s, u);
          EnqueueOrder(s, s', t, s.producers[t].token.value, s.producers[t].pc.m, u);
        }
      }
    }
  }

  // ----- workers -----

  /** A worker binds itself; queues, hands and sinks stay as they are. */
  lemma BindKeeps(s: State, w: nat)
    requires Inv(s) && Enabled(s, RunWorker(w))
    requires s.workers[w].WaitPermit? || s.workers[w].FetchIndex? || s.workers[w].Bind?
    ensures Inv(WorkerStep(s, w))
  {
    hide Filter, OrderAt, OrderOk, PermitsOk;
    BindPermits(s, w);
    SameHands(s, WorkerStep(s, w), w);
  }

  lemma BindPermits(s: State, w: nat)
    requires Shape(s) && PermitsOk(s) && Enabled(s, RunWorker(w))
    requires s.workers[w].WaitPermit? || s.workers[w].FetchIndex? || s.workers[w].Bind?
    ensures PermitsOk(WorkerStep(s, w))
    ensures s.concurrent && s.workers[w].FetchIndex? ==> s.consumerCnt < |s.workers|
  {
    var s' := WorkerStep(s, w);
    SumUpdate(s.workers, PastPermitFn(), w, s'.workers[w]);
    SumUpdate(s.workers, PastFetchFn(), w, s'.workers[w]);
    SumAtMost(s'.workers, PastFetchFn(), 1);
  }

  /** No worker starts or stops handling a message. */
  lemma SameHands(s: State, s': State, w: nat)
    requires OrderOk(s) && w < |s.workers| == |s'.workers| && s'.workers == s.workers[w := s'.workers[w]]
    requires !s.workers[w].Process? && !s'.workers[w].Process?
    requires s'.producers == s.producers && s'.queues == s.queues && s'.sunk == s.sunk && s'.concurrent == s.concurrent
    ensures OrderOk(s')
  {
    hide Filter, Line;
    if Single(s) {
      forall u | 0 <= u < |s'.producers| ensures OrderAt(s', u) {
        assert OrderAt(s, u);
        if s.producers[u].token.Some? {
          var q := s.producers[u].token.value;
          if Busy(s.workers, q) {
            var v :| 0 <= v < |s.workers| && s.workers[v].Process? && s.workers[v].q == q;
            assert s'.workers[v] == s.workers[v];
          }
        }
      }
    }
  }

  /** The front of the queue is taken in hand. */
  lemma TakeOrder(s: State, s': State, w: nat, u: nat)
    requires Inv(s) && Enabled(s, RunWorker(w)) && s.workers[w].Dequeue? && s' == WorkerStep(s, w)
    requires Single(s) && u < |s.producers| && OrderAt(s, u)
    ensures OrderAt(s', u)
  {
    hide Filter, PermitsOk, BoundOk, ProducersOk, FromOk, OrderOk, FlushOk;
    var q, m := s.workers[w].q, s.queues[s.workers[w].q][0];
    assert s.queues[q] == [m] + s.queues[q][1..];
    FilterAppend([m], s.queues[q][1..], u);
    FilterNone([], u);
    if s.producers[u].token == Some(q) {
      NobodyElse(s, w);
      assert !Busy(s.workers, q);
      assert Line(s'.sunk, [m], s'.queues[q], s'.producers[u], u);
      assert Busy(s'.workers, q) by { assert s'.workers[w].Process? && s'.workers[w].q == q; }
      forall v | 0 <= v < |s'.workers| && s'.workers[v].Process? && s'.workers[v].q == q ensures s'.workers[v].m == m {
        assert BoundTo(s'.workers[v]) == Some(q);
      }
    } else if s.producers[u].token.Some? {
      SameBusy(s, s', w, s.producers[u].token.value);
    }
  }

  /** The worker of a queue is the only one that can have its messages in hand. */
  lemma NobodyElse(s: State, w: nat)
    requires Inv(s) && Single(s) && w < |s.workers| && BoundTo(s.workers[w]).Some?
    ensures forall v :: 0 <= v < |s.workers| && v != w ==> BoundTo(s.workers[v]) != BoundTo(s.workers[w])
  {
    hide PermitsOk, ProducersOk, FromOk, OrderOk, FlushOk;
  }

  lemma SameBusy(s: State, s': State, w: nat, q: nat)
    requires w < |s.workers| == |s'.workers| && s'.workers == s.workers[w := s'.workers[w]]
    requires BoundTo(s.workers[w]) == BoundTo(s'.workers[w]) != Some(q)
    ensures Busy(s'.workers, q) == Busy(s.workers, q)
  {
    if Busy(s.workers, q) {
      var v :| 0 <= v < |s.workers| && s.workers[v].Process? && s.workers[v].q == q;
      assert s'.workers[v] == s.workers[v];
    }
  }

  lemma TakeKeeps(s: State, w: nat)
    requires Inv(s) && Enabled(s, RunWorker(w)) && s.workers[w].Dequeue?
    ensures Inv(WorkerStep(s, w))
  {
    hide Filter, OrderAt, OrderOk, Shape, PermitsOk, BoundOk, ProducersOk;
    var s' := WorkerStep(s, w);
    var q := s.workers[w].q;
    BoundKeeps(s, s', w);
    assert FromOk(s') by {
      hide FlushOk;
      assert Belongs(s.queues[q][0], q, s.producers);
      forall k | 0 <= k < |s'.queues[q]| ensures Belongs(s'.queues[q][k], q, s'.producers) {
        assert Belongs(s.queues[q][k + 1], q, s.producers);
      }
    }
    TakeKeepsOrder(s, w);
  }

  lemma TakeKeepsOrder(s: State, w: nat)
    requires Inv(s) && Enabled(s, RunWorker(w)) && s.workers[w].Dequeue?
    ensures OrderOk(WorkerStep(s, w))
  {
    hide Filter, OrderAt, PermitsOk, BoundOk, ProducersOk, FromOk, FlushOk;
    var s' := WorkerStep(s, w);
    if Single(s) {
      forall u | 0 <= u < |s'.producers| ensures OrderAt(s', u) {
        assert OrderAt(s, u);
        TakeOrder(s, s', w, u);
      }
    }
  }

  lemma HandBelongs(s: State, w: nat)
    requires Inv(s) && w < |s.workers| && s.workers[w].Process?
    ensures Belongs(s.workers[w].m, s.workers[w].q, s.producers)
  {
    hide PermitsOk, BoundOk, ProducersOk, OrderOk, FlushOk;
  }

  /** The message in hand goes to the sinks, or ends the worker. */
  lemma ProcessOrder(s: State, s': State, w: nat, u: nat)
    requires Inv(s) && Enabled(s, RunWorker(w)) && s.workers[w].Process? && s' == WorkerStep(s, w)
    requires Single(s) && u < |s.producers| && OrderAt(s, u)
    ensures OrderAt(s', u)
  {
    hide Filter, PermitsOk, BoundOk, ProducersOk, FromOk, OrderOk, FlushOk;
    var q, m := s.workers[w].q, s.workers[w].m;
    FilterAppend(s.sunk, [m], u);
    FilterOne(m, u);
    FilterNone([], u);
    if s.producers[u].token == Some(q) {
      NobodyElse(s, w);
      assert Line(s.sunk, [m], s.queues[q], s.producers[u], u);
      assert Line(s'.sunk, [], s'.queues[q], s'.producers[u], u);
      forall v | 0 <= v < |s'.workers| ensures !(s'.workers[v].Process? && s'.workers[v].q == q) {
        if v != w { assert BoundTo(s.workers[v]) != Some(q); }
      }
    } else {
      HandBelongs(s, w);
      if s.producers[u].token.Some? {
        SameBusy(s, s', w, s.producers[u].token.value);
        OtherLine(s, s', w, u);
      }
    }
  }

  /** What one queue's worker does leaves the line of another queue's threads alone. */
  lemma OtherLine(s: State, s': State, w: nat, u: nat)
    requires u < |s.producers| && s.producers[u].token.Some? && s.producers[u].token.value < |s.queues|
    requires w < |s.workers| == |s'.workers| && s'.workers == s.workers[w := s'.workers[w]]
    requires s'.producers == s.producers && s'.queues == s.queues
    requires BoundTo(s.workers[w]) == BoundTo(s'.workers[w]) != s.producers[u].token
    requires Filter(s'.sunk, u) == Filter(s.sunk, u) && OrderAt(s, u)
    ensures OrderAt(s', u)
  {
    hide Filter;
    var q, p := s.producers[u].token.value, s.producers[u];
    SameBusy(s, s', w, q);
    forall v | 0 <= v < |s'.workers| && s'.workers[v].Process? && s'.workers[v].q == q
      ensures Line(s'.sunk, [s'.workers[v].m], s'.queues[q], p, u)
    {
      assert s.workers[v] == s'.workers[v];
      assert Line(s.sunk, [s.workers[v].m], s.queues[q], p, u);
    }
  }

  /** A worker that stays bound to its queue. */
  lemma BoundKeeps(s: State, s': State, w: nat)
    requires Inv(s) && w < |s.workers| == |s'.workers| && s'.workers == s.workers[w := s'.workers[w]]
    requires BoundTo(s.workers[w]) == BoundTo(s'.workers[w]) != None
    requires s'.concurrent == s.concurrent && s'.locks == s.locks && s'.permits == s.permits && s'.producerCnt == s.producerCnt
    requires s'.consumerCnt == s.consumerCnt && s'.producers == s.producers && s'.shutdown == s.shutdown && |s'.queues| == |s.queues|
    ensures Shape(s') && PermitsOk(s') && BoundOk(s'.concurrent, s'.consumerCnt, |s'.queues|, s'.workers) && ProducersOk(s')
  {
    hide Filter, OrderOk, FromOk, FlushOk, ProducerOk;
    SumUpdate(s.workers, PastPermitFn(), w, s'.workers[w]);
    SumUpdate(s.workers, PastFetchFn(), w, s'.workers[w]);
    assert forall v :: 0 <= v < |s.workers| ==> BoundTo(s'.workers[v]) == BoundTo(s.workers[v]);
  }

  lemma ProcessKeeps(s: State, w: nat)
    requires Inv(s) && Enabled(s, RunWorker(w)) && s.workers[w].Process?
    ensures Inv(WorkerStep(s, w))
  {
    hide Filter, OrderAt, OrderOk, Shape, PermitsOk, BoundOk, ProducersOk;
    var s' := WorkerStep(s, w);
    BoundKeeps(s, s', w);
    ProcessKeepsOrder(s, w);
    assert FromOk(s') by { hide FlushOk; }
    assert FlushOk(s') by { hide FromOk; }
  }

  lemma ProcessKeepsOrder(s: State, w: nat)
    requires Inv(s) && Enabled(s, RunWorker(w)) && s.workers[w].Process?
    ensures OrderOk(WorkerStep(s, w))
  {
    hide Filter, OrderAt, PermitsOk, BoundOk, ProducersOk, FromOk, FlushOk;
    var s' := WorkerStep(s, w);
    if Single(s) {
      forall u | 0 <= u < |s'.producers| ensures OrderAt(s', u) {
        assert OrderAt(s, u);
        ProcessOrder(s, s', w, u);
      }
    }
  }

  lemma FulfilKeeps(s: State, w: nat)
    requires Inv(s) && Enabled(s, RunWorker(w)) && s.workers[w].Fulfil?
    ensures Inv(WorkerStep(s, w))
  {
    hide Filter, OrderAt, OrderOk, Shape, PermitsOk, BoundOk, ProducersOk;
    var s' := WorkerStep(s, w);
    BoundKeeps(s, s', w);
    SameHands(s, s', w);
  }

  // ----- shutting down -----

  lemma BeginKeeps(s: State)
    requires Inv(s) && Enabled(s, BeginShutdown)
    ensures Inv(Next(s, BeginShutdown))
  {
    hide Filter, Line;
    var s' := Next(s, BeginShutdown);
    assert OrderOk(s') by {
      if Single(s) {
        forall u | 0 <= u < |s'.producers| ensures OrderAt(s', u) { assert OrderAt(s, u); }
      }
    }
  }

  lemma TerminateOrder(s: State, s': State, u: nat)
    requires Inv(s) && Enabled(s, RunShutdown) && s' == ShutdownStep(s)
    requires u < |s.producers| && OrderAt(s, u)
    ensures OrderAt(s', u)
  {
    hide Filter;
    var p := s.producers[u];
    FilterOne(Terminate, u);
    if p.token.Some? {
      FilterAppend(s.queues[p.token.value], [Terminate], u);
    }
  }

  lemma ShutdownKeeps(s: State)
    requires Inv(s) && Enabled(s, RunShutdown)
    ensures Inv(ShutdownStep(s))
  {
    hide Filter, OrderAt;
    var s' := ShutdownStep(s);
    assert OrderOk(s') by {
      if Single(s) {
        forall u | 0 <= u < |s'.producers| ensures OrderAt(s', u) {
          assert OrderAt(s, u);
          TerminateOrder(s, s', u);
        }
      }
    }
  }
}
