/** The ring buffer over a vector, and the backtracer that keeps the last messages in one.

    The specification is a bounded sequence: a push past the bound drops the oldest element. */
module CircularQueues {

  // ----- the bounded sequence -----

  function LastOf<T>(s: seq<T>, n: nat): seq<T> { if |s| <= n then s else s[|s| - n..] }

  /** What has happened to a queue since it was made: the elements it holds and how many a push drove out. */
  datatype Bounded<T> = Bounded(items: seq<T>, dropped: nat)

  datatype Op<T> = Push(x: T) | Pop

  function Pushed<T>(b: Bounded<T>, x: T, n: nat): Bounded<T> {
    Bounded(LastOf(b.items + [x], n), b.dropped + if |b.items| >= n then 1 else 0)
  }

  function Apply<T>(b: Bounded<T>, op: Op<T>, n: nat): Bounded<T> {
    match op
    case Push(x) => Pushed(b, x, n)
    case Pop => if b.items == [] then b else Bounded(b.items[1..], b.dropped)
  }

  function Run<T>(ops: seq<Op<T>>, n: nat): (b: Bounded<T>)
    ensures |b.items| <= n
  {
    if ops == [] then Bounded([], 0) else Apply(Run(ops[..|ops| - 1], n), ops[|ops| - 1], n)
  }

  function PushedIn<T>(ops: seq<Op<T>>): seq<T> {
    if ops == [] then [] else PushedIn(ops[..|ops| - 1]) + if ops[|ops| - 1].Push? then [ops[|ops| - 1].x] else []
  }

  /** Pops that found an element. */
  function Popped<T>(ops: seq<Op<T>>, n: nat): nat {
    if ops == [] then 0
    else Popped(ops[..|ops| - 1], n) + if ops[|ops| - 1].Pop? && Run(ops[..|ops| - 1], n).items != [] then 1 else 0
  }

  /** After any run the queue holds the latest pushes, and every push is popped, dropped or present. */
  lemma {:induction false} RunKeepsTheLatest<T>(ops: seq<Op<T>>, n: nat)
    ensures var b := Run(ops, n);
      && |PushedIn(ops)| == Popped(ops, n) + b.dropped + |b.items|
      && b.items == PushedIn(ops)[|PushedIn(ops)| - |b.items|..]
  {
    if ops != [] {
      RunKeepsTheLatest(ops[..|ops| - 1], n);
    }
  }

  /** Without pops it holds exactly the last n pushes, and has dropped all others. */
  lemma {:induction false} PushesKeepTheLast<T>(ops: seq<Op<T>>, n: nat)
    requires forall k :: 0 <= k < |ops| ==> ops[k].Push?
    ensures Run(ops, n).items == LastOf(PushedIn(ops), n)
    ensures Run(ops, n).dropped == |PushedIn(ops)| - |LastOf(PushedIn(ops), n)|
  {
    if ops != [] {
      PushesKeepTheLast(ops[..|ops| - 1], n);
    }
  }

  // ----- the ring -----

  ghost function Ring<T>(v: seq<T>, head: nat, tail: nat): seq<T>
    requires head <= |v| && tail <= |v|
  {
    if tail >= head then v[head..tail] else v[head..] + v[..tail]
  }

  lemma NextSlot(x: nat, n: nat)
    requires x < n
    ensures (x + 1) % n == if x + 1 == n then 0 else x + 1
  {
  }

  lemma SlotAt(x: nat, n: nat)
    requires n > 0 && x < 2 * n
    ensures x % n == if x < n then x else x - n
  {
  }

  lemma RingAt<T>(v: seq<T>, head: nat, tail: nat, i: nat)
    requires head < |v| && tail < |v| && i < |Ring(v, head, tail)|
    ensures Ring(v, head, tail)[i] == v[if head + i < |v| then head + i else head + i - |v|]
  {
  }

  lemma RingPush<T>(v: seq<T>, head: nat, tail: nat, x: T)
    requires head < |v| && tail < |v|
    ensures var next := if tail + 1 == |v| then 0 else tail + 1;
      && (next != head ==> Ring(v[tail := x], head, next) == Ring(v, head, tail) + [x] && |Ring(v, head, tail)| < |v| - 1)
      && (next == head ==> Ring(v[tail := x], if head + 1 == |v| then 0 else head + 1, next) == (Ring(v, head, tail) + [x])[1..]
                           && |Ring(v, head, tail)| == |v| - 1)
  {
  }

  lemma RingPop<T>(v: seq<T>, head: nat, tail: nat)
    requires head < |v| && tail < |v| && head != tail
    ensures Ring(v, if head + 1 == |v| then 0 else head + 1, tail) == Ring(v, head, tail)[1..]
  {
  }

  class CircularQueue<T(0)> {
    var maxSize: nat
    var head: nat
    var tail: nat
    var overrideCnt: nat
    var vec: array<T>

    /** One slot stays free; maxSize is 0 for a queue that is not in use. */
    ghost predicate Valid()
      reads this
    {
      vec.Length == maxSize && (if maxSize == 0 then head == tail == 0 else head < maxSize && tail < maxSize)
    }

    ghost function Length(): nat
      requires Valid()
      reads this
    {
      if tail >= head then tail - head else tail - head + maxSize
    }

    ghost function Capacity(): nat
      reads this
    {
      if maxSize == 0 then 0 else maxSize - 1
    }

    /** The slots from head to tail, around the end. */
    ghost function Contents(): (s: seq<T>)
      requires Valid()
      reads this, vec
      ensures |s| == Length() <= Capacity()
    {
      Ring(vec[..], head, tail)
    }

    ghost function Abstract(): Bounded<T>
      requires Valid()
      reads this, vec
    {
      Bounded(Contents(), overrideCnt)
    }

    constructor Unused()
      ensures Valid() && maxSize == 0 && Contents() == [] && overrideCnt == 0 && fresh(vec)
    {
      maxSize, head, tail, overrideCnt := 0, 0, 0, 0;
      vec := new T[0];
    }

    constructor (maxItems: nat)
      ensures Valid() && maxSize == maxItems + 1 && Abstract() == Bounded([], 0) && fresh(vec)
    {
      maxSize, head, tail, overrideCnt := maxItems + 1, 0, 0, 0;
      vec := new T[maxItems + 1];
    }

    method GetSize() returns (n: nat)
      requires Valid() && maxSize > 0
      ensures n == |Contents()|
    {
      SlotAt(tail - head + maxSize, maxSize);
      n := (tail - head + maxSize) % maxSize;
    }

    method Empty() returns (b: bool)
      requires Valid()
      ensures b <==> Contents() == []
    {
      b := head == tail;
    }

    method Full() returns (b: bool)
      requires Valid()
      ensures b <==> maxSize > 0 && |Contents()| == Capacity()
    {
      if maxSize > 0 {
        NextSlot(tail, maxSize);
        b := (tail + 1) % maxSize == head;
      } else {
        b := false;
      }
    }

    method At(i: nat) returns (x: T)
      requires Valid() && i < |Contents()|
      ensures x == Contents()[i]
    {
      SlotAt(head + i, maxSize);
      RingAt(vec[..], head, tail, i);
      x := vec[(head + i) % maxSize];
    }

    /** The newest element goes in; if that fills the last slot, the oldest goes out. */
    method PushBack(item: T)
      requires Valid()
      modifies this`head, this`tail, this`overrideCnt, vec
      ensures Valid() && vec == old(vec)
      ensures Abstract() == if maxSize == 0 then old(Abstract()) else Pushed(old(Abstract()), item, Capacity())
    {
      if maxSize > 0 {
        ghost var was, v := Contents(), vec[..];
        NextSlot(tail, maxSize);
        NextSlot(head, maxSize);
        RingPush(v, head, tail, item);
        vec[tail] := item;
        assert vec[..] == v[tail := item];
        tail := (tail + 1) % maxSize;
        if tail == head {
          head := (head + 1) % maxSize;
          overrideCnt := overrideCnt + 1;
        }
      }
    }

    method PopFront()
      requires Valid() && Contents() != []
      modifies this`head
      ensures Valid() && Contents() == old(Contents())[1..]
    {
      if maxSize > 0 {
        NextSlot(head, maxSize);
        RingPop(vec[..], head, tail);
        head := (head + 1) % maxSize;
      }
    }

    method Front() returns (x: T)
      requires Valid() && Contents() != []
      ensures x == Contents()[0]
    {
      x := vec[head];
    }

    method Clear()
      requires Valid()
      modifies this
      ensures Valid() && maxSize == 0 && Contents() == [] && overrideCnt == 0 && fresh(vec)
    {
      head, tail, overrideCnt, maxSize := 0, 0, 0, 0;
      vec := new T[0];
    }
  }

  // ----- the backtracer -----

  /** Keeps the last messages logged, to be dumped when something goes wrong. */
  class Backtracer<T(0)> {
    var enabled: bool
    var logMsgs: CircularQueue<T>
    /** What has been logged since it was last enabled or dumped. */
    ghost var logged: seq<T>

    ghost predicate Valid()
      reads this, logMsgs, logMsgs.vec
    {
      && logMsgs.Valid()
      && (enabled <==> logMsgs.maxSize > 0)
      && logMsgs.Contents() == LastOf(logged, logMsgs.Capacity())
    }

    constructor ()
      ensures Valid() && !enabled && logged == [] && fresh(logMsgs) && fresh(logMsgs.vec)
    {
      enabled, logged := false, [];
      logMsgs := new CircularQueue.Unused();
    }

    method EnableWithSize(size: nat)
      requires Valid()
      modifies this
      ensures Valid() && enabled && logged == [] && logMsgs.Capacity() == size && fresh(logMsgs) && fresh(logMsgs.vec)
    {
      enabled, logged := true, [];
      logMsgs := new CircularQueue(size);
    }

    method Disable()
      requires Valid()
      modifies this, logMsgs
      ensures Valid() && !enabled && logged == [] && logMsgs == old(logMsgs) && fresh(logMsgs.vec)
    {
      enabled, logged := false, [];
      logMsgs.Clear();
    }

    method PushBack(msg: T)
      requires Valid()
      modifies this`logged, logMsgs, logMsgs.vec
      ensures Valid() && enabled == old(enabled) && logMsgs.vec == old(logMsgs.vec)
      ensures logMsgs.Capacity() == old(logMsgs.Capacity())
      ensures logged == old(logged) + [msg]
    {
      logMsgs.PushBack(msg);
      logged := logged + [msg];
    }

    /** Hands the messages kept to `func`, oldest first, and forgets them: the last of those logged, as
        many as there is room for. */
    method ForeachDo() returns (dumped: seq<T>)
      requires Valid()
      modifies this`logged, logMsgs
      ensures Valid() && enabled == old(enabled) && logMsgs.vec == old(logMsgs.vec)
      ensures dumped == LastOf(old(logged), old(logMsgs.Capacity()))
      ensures logged == [] && logMsgs.Contents() == []
    {
      hide Ring;
      dumped := [];
      ghost var all := logMsgs.Contents();
      var more := logMsgs.Empty();
      more := !more;
      while more
        invariant logMsgs.Valid() && logMsgs.vec == old(logMsgs.vec) && logMsgs.maxSize == old(logMsgs.maxSize)
        invariant dumped + logMsgs.Contents() == all
        invariant more <==> logMsgs.Contents() != []
        decreases |logMsgs.Contents()|
      {
        ghost var kept := logMsgs.Contents();
        assert dumped + kept == (dumped + [kept[0]]) + kept[1..];
        var msg := logMsgs.Front();
        logMsgs.PopFront();
        dumped := dumped + [msg];
        more := logMsgs.Empty();
        more := !more;
      }
      logged := [];
    }
  }
}
