/** The thread-id table as an object updated in place: each method is the next atomic operation of one
    thread. */
module ThreadHashObjects {
  import opened Options
  import opened ThreadHashes
  import ThreadHashMap

  class ImplicitProducerHashes {
    var hashes: seq<seq<Slot>>
    var implicitProducerHashCount: int
    var resizeInProgress: bool
    var inactive: seq<bool>
    const hashedIds: seq<nat>
    var threads: seq<Thread>

    function Snapshot(): State
      reads this
    {
      State(hashes, implicitProducerHashCount, resizeInProgress, inactive, hashedIds, threads)
    }

    ghost predicate Valid()
      reads this
    {
      ThreadHashMap.Inv(Snapshot())
    }

    constructor (initialSize: nat, hashedIds: seq<nat>)
      requires initialSize > 0
      ensures Init(Snapshot()) && Valid() && |threads| == |hashedIds|
    {
      hashes := [seq(initialSize, _ => Slot(Empty, 0))];
      implicitProducerHashCount, resizeInProgress, inactive := 0, false, [];
      this.hashedIds := hashedIds;
      threads := seq(|hashedIds|, _ => Thread(Idle, None, None));
      new;
      ThreadHashMap.InitInv(Snapshot());
    }

    method Goto(t: nat, pc: PC)
      requires t < |threads|
      modifies this`threads
      ensures threads == old(threads)[t := old(threads[t]).(pc := pc)]
    {
      threads := threads[t := threads[t].(pc := pc)];
    }

    /** The slot that thread t probes after d others in table h. */
    function Index(h: nat, t: nat, d: nat): nat
      requires h < |hashes| && hashes[h] != [] && t < |hashedIds|
      reads this
    {
      (hashedIds[t] + d) % |hashes[h]|
    }

    method Begin(a: Action)
      requires Valid() && Enabled(Snapshot(), a) && !a.Run?
      modifies this
      ensures Snapshot() == Next(old(Snapshot()), a) && Valid()
    {
      hide ThreadHashMap.Inv;
      ThreadHashMap.NextInv(Snapshot(), a);
      match a {
        case Call(t) => threads := threads[t := threads[t].(pc := LoadMain, result := None)];
        case Exit(t) => Goto(t, if threads[t].bound.Some? then Erase(if |hashes| > 0 then |hashes| - 1 else 0, 0) else Dead);
        case Reborn(t) => threads := threads[t := Thread(Idle, None, None)];
      }
    }

    /** One probe of the search for the thread's id. */
    method RunProbe(t: nat)
      requires Valid() && Enabled(Snapshot(), Run(t, true, 0)) && threads[t].pc.Probe?
      modifies this
      ensures Snapshot() == Next(old(Snapshot()), Run(t, true, 0)) && Valid()
    {
      hide ThreadHashMap.Inv;
      ThreadHashMap.NextInv(Snapshot(), Run(t, true, 0));
      ProbedTable(Snapshot(), t);
      var Probe(mainHash, hash, d) := threads[t].pc;
      var index := Index(hash, t, d);
      var probedKey := hashes[hash][index].key;
      if probedKey == Id(t) {
        var value := hashes[hash][index].value;
        if hash != mainHash {
          Goto(t, CopyTo(mainHash, 0, value));
        } else {
          threads := threads[t := threads[t].(pc := Idle, result := Some(value))];
        }
      } else if probedKey == Empty {
        Goto(t, if hash == 0 then CountUp(mainHash) else Probe(mainHash, hash - 1, 0));
      } else {
        Goto(t, Probe(mainHash, hash, d + 1));
      }
    }

    /** compare_exchange of an empty slot or a tombstone of the main table, for an id found in an older one. */
    method RunCopy(t: nat)
      requires Valid() && Enabled(Snapshot(), Run(t, true, 0)) && threads[t].pc.CopyTo?
      modifies this
      ensures Snapshot() == Next(old(Snapshot()), Run(t, true, 0)) && Valid()
    {
      hide ThreadHashMap.Inv;
      ThreadHashMap.NextInv(Snapshot(), Run(t, true, 0));
      ProbedTable(Snapshot(), t);
      var CopyTo(mainHash, d, value) := threads[t].pc;
      var index := Index(mainHash, t, d);
      var key := hashes[mainHash][index].key;
      if key == Empty || key == Tomb {
        hashes := hashes[mainHash := hashes[mainHash][index := Slot(Id(t), value)]];
        threads := threads[t := threads[t].(pc := Idle, result := Some(value))];
      } else {
        Goto(t, CopyTo(mainHash, d + 1, value));
      }
    }

    /** Drawing a number and seeing to it that there is room. */
    method RunReserve(t: nat, ok: bool)
      requires Valid() && Enabled(Snapshot(), Run(t, ok, 0))
      requires threads[t].pc.CountUp? || threads[t].pc.Check? || threads[t].pc.Unlock? || threads[t].pc.Room?
      modifies this
      ensures Snapshot() == Next(old(Snapshot()), Run(t, ok, 0)) && Valid()
    {
      hide ThreadHashMap.Inv;
      ThreadHashMap.NextInv(Snapshot(), Run(t, ok, 0));
      match threads[t].pc {
        case CountUp(mainHash) =>
          implicitProducerHashCount := implicitProducerHashCount + 1;
          Goto(t, Check(mainHash, NatOf(implicitProducerHashCount)));
        case Check(mainHash, newCount) =>
          var capacity := if mainHash < |hashes| then |hashes[mainHash]| else 0;
          if newCount >= capacity / 2 && !resizeInProgress {
            resizeInProgress := true;
            Goto(t, Grow(newCount));
          } else {
            Goto(t, Room(mainHash, newCount));
          }
        case Unlock(mainHash, newCount) =>
          resizeInProgress := false;
          Goto(t, Room(mainHash, newCount));
        case Room(mainHash, newCount) =>
          var capacity := if mainHash < |hashes| then |hashes[mainHash]| else 0;
          if newCount < capacity / 2 + capacity / 4 {
            Goto(t, Recycle(mainHash));
          } else {
            Goto(t, Check(if |hashes| > 0 then |hashes| - 1 else 0, newCount));
          }
      }
    }

    /** Under the resize lock: a new table, its capacity doubled until the number is below half of it. */
    method RunGrow(t: nat, ok: bool)
      requires Valid() && Enabled(Snapshot(), Run(t, ok, 0)) && threads[t].pc.Grow?
      modifies this
      ensures Snapshot() == Next(old(Snapshot()), Run(t, ok, 0)) && Valid()
    {
      hide ThreadHashMap.Inv;
      ghost var before := Snapshot();
      ThreadHashMap.NextInv(before, Run(t, ok, 0));
      SomeTable(before);
      var newCount := threads[t].pc.n;
      var mainHash := |hashes| - 1;
      var capacity := |hashes[mainHash]|;
      if newCount < capacity / 2 {
        Goto(t, Unlock(mainHash, newCount));
      } else {
        var newCapacity := 2 * capacity;
        while newCount >= newCapacity / 2
          invariant newCapacity > 0 && NewCapacity(newCount, newCapacity) == NewCapacity(newCount, 2 * capacity)
          decreases 2 * newCount + 2 - newCapacity
        {
          newCapacity := 2 * newCapacity;
        }
        if !ok {
          Goto(t, GiveUp(true));
        } else {
          hashes := hashes + [seq(newCapacity, _ => Slot(Empty, 0))];
          Goto(t, Unlock(|hashes| - 1, newCount));
        }
      }
    }

    /** A producer, then a tombstone or an empty slot for the id. */
    method RunBind(t: nat, ok: bool, p: nat)
      requires Valid() && Enabled(Snapshot(), Run(t, ok, p))
      requires threads[t].pc.Recycle? || threads[t].pc.TryTomb? || threads[t].pc.TryEmpty?
      modifies this
      ensures Snapshot() == Next(old(Snapshot()), Run(t, ok, p)) && Valid()
    {
      hide ThreadHashMap.Inv;
      ThreadHashMap.NextInv(Snapshot(), Run(t, ok, p));
      ProbedTable(Snapshot(), t);
      if threads[t].pc.Recycle? {
        if !ok {
          Goto(t, GiveUp(false));
        } else {
          inactive := if p < |inactive| then inactive[p := false] else inactive + [false];
          Goto(t, TryTomb(threads[t].pc.main, 0, p));
        }
      } else {
        var mainHash, d, producer := threads[t].pc.main, threads[t].pc.d, threads[t].pc.p;
        var index := Index(mainHash, t, d);
        var wanted := if threads[t].pc.TryTomb? then Tomb else Empty;
        if hashes[mainHash][index].key == wanted {
          hashes := hashes[mainHash := hashes[mainHash][index := Slot(Id(t), producer)]];
          threads := threads[t := Thread(if wanted == Tomb then Uncount else Idle, Some(producer), Some(producer))];
        } else {
          Goto(t, if wanted == Tomb then TryEmpty(mainHash, d, producer) else TryTomb(mainHash, d + 1, producer));
        }
      }
    }

    /** The fetch_sub's and the release of the lock. */
    method RunBackOut(t: nat)
      requires Valid() && Enabled(Snapshot(), Run(t, true, 0))
      requires threads[t].pc.Uncount? || threads[t].pc.GiveUp? || threads[t].pc.ClearLock? || threads[t].pc.LoadMain?
      modifies this
      ensures Snapshot() == Next(old(Snapshot()), Run(t, true, 0)) && Valid()
    {
      hide ThreadHashMap.Inv;
      ThreadHashMap.NextInv(Snapshot(), Run(t, true, 0));
      match threads[t].pc {
        case LoadMain =>
          var mainHash := if |hashes| > 0 then |hashes| - 1 else 0;
          Goto(t, Probe(mainHash, mainHash, 0));
        case Uncount =>
          implicitProducerHashCount := implicitProducerHashCount - 1;
          Goto(t, Idle);
        case GiveUp(locked) =>
          implicitProducerHashCount := implicitProducerHashCount - 1;
          Goto(t, if locked then ClearLock else Idle);
        case ClearLock =>
          resizeInProgress := false;
          Goto(t, Idle);
      }
    }

    /** implicit_producer_thread_exited: the id becomes a tombstone in every table that has it. */
    method RunExit(t: nat)
      requires Valid() && Enabled(Snapshot(), Run(t, true, 0)) && (threads[t].pc.Erase? || threads[t].pc.Retire?)
      modifies this
      ensures Snapshot() == Next(old(Snapshot()), Run(t, true, 0)) && Valid()
    {
      hide ThreadHashMap.Inv, ProbeStep, CopyStep, GrowStep, RecycleStep, TombStep, EmptyStep;
      ThreadHashMap.NextInv(Snapshot(), Run(t, true, 0));
      ProbedTable(Snapshot(), t);
      if threads[t].pc.Retire? {
        var producer := threads[t].bound.GetOr(0);
        if producer < |inactive| { inactive := inactive[producer := true]; }
        threads := threads[t := Thread(Dead, None, None)];
      } else {
        var Erase(hash, d) := threads[t].pc;
        var index := Index(hash, t, d);
        var probedKey := hashes[hash][index].key;
        if probedKey == Id(t) {
          hashes := hashes[hash := hashes[hash][index := hashes[hash][index].(key := Tomb)]];
        }
        if probedKey == Id(t) || probedKey == Empty {
          Goto(t, if hash == 0 then Retire else Erase(hash - 1, 0));
        } else {
          Goto(t, Erase(hash, d + 1));
        }
      }
    }
  }

  /** The tables that threads probe are there. */
  lemma ProbedTable(s: State, t: nat)
    requires ThreadHashMap.Inv(s) && t < |s.threads|
    ensures var pc := s.threads[t].pc;
      && (pc.Probe? || pc.Erase? ==> pc.h < |s.tables| && s.tables[pc.h] != [])
      && (pc.CopyTo? || pc.TryTomb? || pc.TryEmpty? ==> pc.main < |s.tables| && s.tables[pc.main] != [])
  {
    hide ThreadHashMap.NoId, ThreadHashMap.Found, ThreadHashMap.OwnersOk;
    ThreadHashMap.PcFact(s, t);
    var pc := s.threads[t].pc;
    if pc.Probe? || pc.Erase? { ThreadHashMap.NotEmptyTable(s, pc.h); }
    if pc.CopyTo? || pc.TryTomb? || pc.TryEmpty? { ThreadHashMap.NotEmptyTable(s, pc.main); }
  }

  lemma SomeTable(s: State)
    requires ThreadHashMap.Inv(s)
    ensures s.tables != [] && s.tables[|s.tables| - 1] != []
  {
    hide ThreadHashMap.NoId, ThreadHashMap.Found, ThreadHashMap.OwnersOk, ThreadHashMap.PcOk;
    ThreadHashMap.SomeTable(s);
    ThreadHashMap.NotEmptyTable(s, |s.tables| - 1);
  }
}
