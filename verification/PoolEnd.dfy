/** Shutting a thread pool down comes to an end: it does not get stuck, and every step brings the end nearer. */
module PoolEnd {
  import opened Counting
  import opened Options
  import opened ThreadPools
  import opened PoolSafety
  import opened PoolDrain
  import opened PoolOrder

  predicate ShuttingDown(s: State) { s.shutdown.Terminating? || s.shutdown.Joining? }

  // ----- every step brings the end nearer -----

  /** Steps of a worker until it needs the next message. */
  function Left(w: Worker): int {
    match w
    case WaitPermit => 3
    case FetchIndex => 2
    case Bind(_) => 1
    case Process(_, _) => 2
    case Fulfil(_, _) => 1
    case _ => 0
  }

  function Length(q: seq<Msg>): int { |q| }

  ghost function LeftFn(): Worker -> int { w => Left(w) }
  ghost function LengthFn(): seq<Msg> -> int { q => Length(q) }

  /** Steps of the destructor, those on the messages it will send included. */
  function ToSend(s: State): int {
    match s.shutdown
    case Terminating(i, signalled) => 5 * (|s.workers| - i) + 2 - if signalled then 1 else 0
    case Joining => 1
    case _ => 0
  }

  /** A bound on the steps that are left. */
  ghost function Remaining(s: State): int {
    3 * Sum(s.queues, LengthFn()) + Sum(s.workers, LeftFn()) + ToSend(s)
  }

  lemma RemainingIsNatural(s: State)
    requires PoolSafety.Inv(s)
    ensures Remaining(s) >= 0
  {
    hide PermitsOk, BoundOk, ProducersOk, FromOk, OrderOk, FlushOk;
    SumNonNegative(s.queues, LengthFn());
    SumNonNegative(s.workers, LeftFn());
  }

  lemma WorkerFalls(s: State, w: nat)
    requires Enabled(s, RunWorker(w))
    ensures Remaining(WorkerStep(s, w)) < Remaining(s)
  {
    var s' := WorkerStep(s, w);
    SumUpdate(s.workers, LeftFn(), w, s'.workers[w]);
    if s.workers[w].Dequeue? {
      var q := s.workers[w].q;
      SumUpdate(s.queues, LengthFn(), q, s.queues[q][1..]);
    }
  }

  lemma DestructorFalls(s: State)
    requires Enabled(s, RunShutdown) && Shape(s)
    ensures Remaining(ShutdownStep(s)) < Remaining(s)
  {
    if s.shutdown.Terminating? && s.shutdown.i < |s.workers| && (!s.concurrent || s.shutdown.signalled) {
      var q := if s.concurrent then s.shutdown.i else 0;
      SumUpdate(s.queues, LengthFn(), q, s.queues[q] + [Terminate]);
    }
  }

  lemma RemainingFalls(s: State, a: Action)
    requires PoolDrain.Inv(s) && ShuttingDown(s) && Enabled(s, a)
    ensures Remaining(Next(s, a)) < Remaining(s) && (ShuttingDown(Next(s, a)) || Next(s, a).shutdown.Gone?)
  {
    hide PermitsOk, BoundOk, ProducersOk, FromOk, OrderOk, FlushOk, Conserved, LocksOk, EndOk, Remaining;
    match a {
      case RunWorker(w) => WorkerFalls(s, w);
      case RunShutdown => DestructorFalls(s);
      case _ =>
    }
  }

  /** A run that is shutting down takes no more steps than remained when it started to. */
  lemma {:induction false} ShutdownIsShort(run: seq<State>, i: nat, j: nat)
    requires IsRun(run) && i <= j < |run| && ShuttingDown(run[i]) && (forall k :: i <= k < j ==> ShuttingDown(run[k]))
    ensures j - i <= Remaining(run[i]) - Remaining(run[j])
  {
    hide PoolDrain.Inv, Remaining, Enabled, Next, Init;
    if i < j {
      ShutdownIsShort(run, i, j - 1);
      RunInv(run, j - 1);
      assert Leads(run[j - 1], run[j - 1 + 1]);
      var a :| Moves(run[j - 1], a, run[j]);
      RemainingFalls(run[j - 1], a);
    }
  }

  // ----- it does not get stuck -----

  /** A worker that has not taken its order to stop finds a message, if the orders are out. */
  lemma OrderIsThere(s: State, w: nat)
    requires PoolDrain.Inv(s) && w < |s.workers| && s.workers[w].Dequeue? && s.shutdown.Joining?
    ensures s.workers[w].q < |s.queues| && s.queues[s.workers[w].q] != []
  {
    hide Filter, FromOk, OrderOk, FlushOk, Conserved, LocksOk, ProducersOk;
    var q := s.workers[w].q;
    assert EndAt(s, q);
    if s.concurrent {
      forall v | 0 <= v < |s.workers| ensures Ending(s.workers[v], q) == 0 {
        if v != w { assert BoundTo(s.workers[v]) != BoundTo(s.workers[w]); }
      }
      SumZero(s.workers, EndingFn(q));
    } else {
      SumUpdate(s.workers, EndingFn(q), w, Exited(q));
      SumAtMost(s.workers[w := Exited(q)], EndingFn(q), 1);
    }
  }

  /** While the workers are being joined, each that has not exited can go on. */
  lemma JoinedWorkerMoves(s: State, w: nat)
    requires PoolDrain.Inv(s) && s.shutdown.Joining? && w < |s.workers| && !s.workers[w].Exited?
    ensures Enabled(s, RunWorker(w))
  {
    hide Filter, FromOk, OrderOk, FlushOk, Conserved, LocksOk, EndOk, ProducersOk, BoundOk;
    if s.workers[w].Dequeue? { OrderIsThere(s, w); }
    if s.workers[w].WaitPermit? { PermitIsThere(s, w); }
  }

  lemma PermitIsThere(s: State, w: nat)
    requires PoolDrain.Inv(s) && s.shutdown.Joining? && w < |s.workers| && s.workers[w].WaitPermit?
    ensures s.permits > 0
  {
    hide Filter, FromOk, OrderOk, FlushOk, Conserved, LocksOk, EndOk, ProducersOk;
    assert BoundTo(s.workers[w]).None?;
    SumUpdate(s.workers, PastPermitFn(), w, FetchIndex);
    SumAtMost(s.workers[w := FetchIndex], PastPermitFn(), 1);
  }

  /** While the destructor finds no room, there is a worker that can go on. */
  lemma FullQueueMoves(s: State) returns (w: nat)
    requires PoolDrain.Inv(s) && !s.concurrent && s.shutdown.Terminating? && s.shutdown.i < |s.workers|
    requires |s.queues| == 1 && s.queues[0] != []
    ensures Enabled(s, RunWorker(w))
  {
    hide Filter, FromOk, OrderOk, FlushOk, Conserved, LocksOk, ProducersOk;
    assert EndAt(s, 0);
    if forall v :: 0 <= v < |s.workers| ==> Ending(s.workers[v], 0) == 1 {
      SumConstant(s.workers, EndingFn(0), 1);
      assert false;
    }
    w :| 0 <= w < |s.workers| && Ending(s.workers[w], 0) != 1;
    assert BoundTo(s.workers[w]).Some? && BoundTo(s.workers[w]).value == 0;
  }

  lemma SomebodyMoves(s: State) returns (a: Action)
    requires PoolDrain.Inv(s) && ShuttingDown(s) && (s.concurrent || s.capacity > 0)
    ensures Enabled(s, a)
  {
    hide PermitsOk, BoundOk, ProducersOk, FromOk, OrderOk, FlushOk, Conserved, LocksOk, EndOk;
    a := RunShutdown;
    if s.shutdown.Joining? {
      if w: nat :| w < |s.workers| && !s.workers[w].Exited? {
        JoinedWorkerMoves(s, w);
        a := RunWorker(w);
      }
    } else if !Enabled(s, RunShutdown) {
      var w := FullQueueMoves(s);
      a := RunWorker(w);
    }
  }

  ghost predicate CanGoOn(s: State) { exists a :: Enabled(s, a) }

  /** Without room the destructor waits for ever. */
  lemma NoRoomSticks(s0: State)
    requires Init(s0) && !s0.concurrent && s0.capacity == 0
    ensures exists s :: ReachableFrom(s0, s) && ShuttingDown(s) && !CanGoOn(s)
  {
    var s := s0.(shutdown := Terminating(0, false));
    assert Moves(s0, BeginShutdown, s);
    var run := [s0, s];
    assert Leads(run[0], run[1]);
    assert IsRun(run) && run[|run| - 1] == s;
    assert ReachableFrom(s0, s);
    forall a ensures !Enabled(s, a) {}
  }

  /** A pool that is shutting down can go on in every reachable state, unless, and only unless, it is one
      with a shared queue that has no room at all. */
  lemma ShutdownNeverSticksExactlyWithRoom(s0: State)
    requires Init(s0)
    ensures (forall s :: ReachableFrom(s0, s) && ShuttingDown(s) ==> CanGoOn(s)) <==> s0.concurrent || s0.capacity > 0
  {
    hide PoolDrain.Inv, Init, Leads, Next, Enabled;
    if s0.concurrent || s0.capacity > 0 {
      forall s | ReachableFrom(s0, s) && ShuttingDown(s) ensures CanGoOn(s) {
        var run :| IsRun(run) && run[0] == s0 && run[|run| - 1] == s;
        RunShape(run, |run| - 1);
        RunInv(run, |run| - 1);
        var a := SomebodyMoves(s);
      }
    } else {
      NoRoomSticks(s0);
    }
  }

  // ----- the end -----

  lemma GoneStays(s: State, a: Action)
    requires PoolDrain.Inv(s) && Enabled(s, a) && (s.shutdown.Gone? ==> AllExited(s))
    ensures Next(s, a).shutdown.Gone? ==> AllExited(Next(s, a))
  {
    hide PermitsOk, BoundOk, ProducersOk, FromOk, OrderOk, FlushOk, Conserved, LocksOk, EndOk;
  }

  lemma {:induction false} GoneMeansExited(run: seq<State>, i: nat)
    requires IsRun(run) && i < |run| && run[i].shutdown.Gone?
    ensures AllExited(run[i])
  {
    hide PoolDrain.Inv, Enabled, Next;
    if i > 0 {
      RunInv(run, i - 1);
      assert Leads(run[i - 1], run[i - 1 + 1]);
      var a :| Moves(run[i - 1], a, run[i]);
      if run[i - 1].shutdown.Gone? { GoneMeansExited(run, i - 1); }
      GoneStays(run[i - 1], a);
    }
  }

  /** A run that has begun to shut down and cannot go on has reached the end: the workers have exited, and
      each message ever issued has been handed to the sinks exactly once. */
  lemma ShutdownEnds(run: seq<State>)
    requires IsRun(run) && run[|run| - 1].shutdown != Running && !CanGoOn(run[|run| - 1])
    requires run[0].concurrent || run[0].capacity > 0
    ensures var s := run[|run| - 1];
      s.shutdown.Gone? && AllExited(s) && forall m :: Issued(s, m) ==> CountIn(s.sunk, m) == 1
  {
    hide PoolDrain.Inv, Init, Leads, Next, Enabled, Issued, CountIn;
    var last := |run| - 1;
    var s := run[last];
    RunShape(run, last);
    RunInv(run, last);
    if ShuttingDown(s) { var a := SomebodyMoves(s); }
    GoneMeansExited(run, last);
    forall m | Issued(s, m) ensures CountIn(s.sunk, m) == 1 { ShutdownDrains(s, m); }
  }
}
