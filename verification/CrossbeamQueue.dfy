// CrossbeamBlockingQueue: retry loops over an array queue whose push, pop and is_empty are atomic.
// Between two attempts the other threads act.
module CrossbeamQueue {

  import opened Wrappers
  import opened Fifo

  class CrossbeamBlockingQueue<E> {
    const capacity: nat
    var elements: seq<E>              // ArrayQueue
    var clock: nat                    // Instant::now()
    ghost var log: seq<Event<E>>

    ghost predicate Valid()
      reads this
    {
      && capacity > 0
      && Legal(capacity, log)
      && elements == Contents(log)
      && |elements| <= capacity
    }

    // ArrayQueue::new panics at capacity 0.
    constructor (size: nat)
      requires size > 0
      ensures Valid() && capacity == size && elements == [] && log == []
    {
      capacity := size;
      elements, clock, log := [], 0, [];
    }

    method Len() returns (n: nat)
      requires Valid()
      ensures n == |Contents(log)|
    {
      n := |elements|;
    }

    method IsEmpty() returns (b: bool)
      requires Valid()
      ensures b <==> Contents(log) == []
    {
      b := elements == [];
    }

    method IsFull() returns (b: bool)
      requires Valid()
      ensures b <==> |Contents(log)| == capacity
    {
      b := |elements| == capacity;
    }

    // ArrayQueue::push: gives the element back when the queue is full.
    method Push(mine: bool, e: E) returns (ok: bool)
      requires Valid()
      modifies this
      ensures Valid() && clock == old(clock)
      ensures ok == (|old(elements)| < capacity)
      ensures log == if ok then old(log) + [Fifo.Push(mine, e)] else old(log)
      ensures elements == if ok then old(elements) + [e] else old(elements)
    {
      ok := |elements| < capacity;
      if ok {
        OneMore(capacity, log, Fifo.Push(mine, e));
        log := log + [Fifo.Push(mine, e)];
        elements := elements + [e];
      }
    }

    // ArrayQueue::pop
    method Pop(mine: bool) returns (r: Option<E>)
      requires Valid()
      modifies this
      ensures Valid() && clock == old(clock)
      ensures r == if old(elements) == [] then None else Some(old(elements)[0])
      ensures log == if r.Some? then old(log) + [Fifo.Pop(mine, r.value)] else old(log)
      ensures old(elements) == if r.Some? then [r.value] + elements else elements
    {
      if elements == [] {
        r := None;
      } else {
        r := Some(elements[0]);
        OneMore(capacity, log, Fifo.Pop(mine, elements[0]));
        log := log + [Fifo.Pop(mine, elements[0])];
        elements := elements[1..];
      }
    }

    method Other(attempt: Attempt<E>)
      requires Valid()
      modifies this
      ensures Valid() && clock == old(clock) && OnlyOthers(old(log), log)
      ensures elements == Tried(capacity, old(elements), attempt)
    {
      match attempt {
        case Put(e) => var _ := Push(false, e);
        case Get => var _ := Pop(false);
      }
    }

    method Others(attempts: seq<Attempt<E>>)
      requires Valid()
      modifies this
      ensures Valid() && clock == old(clock) && OnlyOthers(old(log), log)
      ensures elements == Afterwards(capacity, old(elements), attempts)
    {
      hide Contents, Legal, OnlyOthers, Tried;
      OthersSelf(log);
      for k := 0 to |attempts|
        invariant Valid() && clock == old(clock) && OnlyOthers(old(log), log)
        invariant elements == Afterwards(capacity, old(elements), attempts[..k])
      {
        ghost var before := log;
        Other(attempts[k]);
        OthersTrans(old(log), before, log);
        OneMoreTried(capacity, old(elements), attempts, k);
      }
      assert attempts[..|attempts|] == attempts;
    }

    method TryEnqueue(e: E, timeout: Timeout, turns: seq<Turn<E>>) returns (r: Response<Option<E>>, ghost n: nat)
      requires Valid()
      modifies this
      ensures Valid()
      ensures EnqueueSpec(capacity, old(log), log, e, timeout, clock - old(clock), r)
      ensures r.StillWaiting? ==> UsedUp(timeout, clock - old(clock), turns)
      ensures Ends(Room, capacity, old(elements), timeout, turns, n, EnqueueEnd(r))
      ensures elements == AfterTurns(capacity, old(elements), turns[..n]) + if r == Done(None) then [e] else []
      ensures |old(elements)| < capacity ==> r == Done(None) && log == old(log) + [Fifo.Push(true, e)]
    {
      LoopBegins(log, timeout, clock, turns);
      WaitBegins(Room, capacity, elements, timeout, turns);
      hide Span, Charged, Gaps, Contents, Legal, OnlyOthers, Budget, TimeUp, UsedUp, Charge, AfterTurns, Afterwards, Tried, Waited, InTime;
      var t := timeout;
      var start: nat := clock;
      var k := 0;
      n := 0;
      while true
        invariant 0 <= k <= |turns| && n == k
        invariant Valid() && OnlyOthers(old(log), log) && old(clock) <= start <= clock
        invariant elements == AfterTurns(capacity, old(elements), turns[..k])
        invariant Waited(Room, capacity, old(elements), timeout, turns, k) && InTime(timeout, turns, k)
        invariant Budget(timeout, t, Charged(turns[..k]), old(clock), start)
        invariant clock == start == old(clock) + Charged(turns[..k]) + Gaps(turns[..k])
        invariant |old(elements)| < capacity ==> k == 0 && log == old(log)
        decreases |turns| - k
      {
        ghost var before := log;
        var ok := Push(true, e);
        if ok {
          OwnEvent(old(log), before, Fifo.Push(true, e));
          return Done(None), n;
        }
        if k == |turns| {
          assert turns[..k] == turns;
          StillInTime(timeout, t, old(clock), start, turns);
          return StillWaiting, n;
        }
        WaitStep(Room, capacity, old(elements), timeout, turns, k);
        Others(turns[k].others);
        OthersTrans(old(log), before, log);
        clock := clock + turns[k].slept + turns[k].read;
        k := k + 1;
        n := k;
        TurnEnds(timeout, t, old(clock), start, turns, k - 1, clock);
        var elapsed := clock - start;
        if !Below(elapsed, t) {
          return Done(Some(e)), n;
        }
        t := Charge(t, elapsed);
        clock := clock + turns[k - 1].restart;
        start := clock;
      }
    }

    method Enqueue(e: E, turns: seq<Turn<E>>) returns (r: Response<Option<E>>, ghost n: nat)
      requires Valid()
      modifies this
      ensures Valid()
      ensures EnqueueSpec(capacity, old(log), log, e, Forever, clock - old(clock), r)
      ensures r.StillWaiting? ==> UsedUp(Forever, clock - old(clock), turns)
      ensures Ends(Room, capacity, old(elements), Forever, turns, n, EnqueueEnd(r))
      ensures elements == AfterTurns(capacity, old(elements), turns[..n]) + if r == Done(None) then [e] else []
      ensures r == StillWaiting || r == Done(None)
    {
      r, n := TryEnqueue(e, Forever, turns);
    }

    method TryDequeue(timeout: Timeout, turns: seq<Turn<E>>) returns (r: Response<Option<E>>, ghost n: nat)
      requires Valid()
      modifies this
      ensures Valid()
      ensures DequeueSpec(capacity, old(log), log, timeout, clock - old(clock), r)
      ensures r.StillWaiting? ==> UsedUp(timeout, clock - old(clock), turns)
      ensures Ends(Element, capacity, old(elements), timeout, turns, n, DequeueEnd(r))
      ensures AfterTurns(capacity, old(elements), turns[..n]) == Got(r) + elements
      ensures old(elements) != [] ==>
        r == Done(Some(old(elements)[0])) && log == old(log) + [Fifo.Pop(true, old(elements)[0])]
    {
      LoopBegins(log, timeout, clock, turns);
      WaitBegins(Element, capacity, elements, timeout, turns);
      hide Span, Charged, Gaps, Contents, Legal, OnlyOthers, Budget, TimeUp, UsedUp, Charge, AfterTurns, Afterwards, Tried, Waited, InTime;
      var t := timeout;
      var start: nat := clock;
      var k := 0;
      n := 0;
      while true
        invariant 0 <= k <= |turns| && n == k
        invariant Valid() && OnlyOthers(old(log), log) && old(clock) <= start <= clock
        invariant elements == AfterTurns(capacity, old(elements), turns[..k])
        invariant Waited(Element, capacity, old(elements), timeout, turns, k) && InTime(timeout, turns, k)
        invariant Budget(timeout, t, Charged(turns[..k]), old(clock), start)
        invariant clock == start == old(clock) + Charged(turns[..k]) + Gaps(turns[..k])
        invariant old(elements) != [] ==> k == 0 && log == old(log)
        decreases |turns| - k
      {
        ghost var before := log;
        var element := Pop(true);
        if element.Some? {
          OwnEvent(old(log), before, Fifo.Pop(true, element.value));
          return Done(element), n;
        }
        assert log == before && elements == [];
        if k == |turns| {
          assert turns[..k] == turns;
          StillInTime(timeout, t, old(clock), start, turns);
          return StillWaiting, n;
        }
        WaitStep(Element, capacity, old(elements), timeout, turns, k);
        Others(turns[k].others);
        OthersTrans(old(log), before, log);
        clock := clock + turns[k].slept + turns[k].read;
        k := k + 1;
        n := k;
        TurnEnds(timeout, t, old(clock), start, turns, k - 1, clock);
        var elapsed := clock - start;
        if !Below(elapsed, t) {
          return Done(None), n;
        }
        t := Charge(t, elapsed);
        clock := clock + turns[k - 1].restart;
        start := clock;
      }
    }

    method Dequeue(turns: seq<Turn<E>>) returns (r: Response<Option<E>>, ghost n: nat)
      requires Valid()
      modifies this
      ensures Valid()
      ensures DequeueSpec(capacity, old(log), log, Forever, clock - old(clock), r)
      ensures r.StillWaiting? ==> UsedUp(Forever, clock - old(clock), turns)
      ensures Ends(Element, capacity, old(elements), Forever, turns, n, DequeueEnd(r))
      ensures AfterTurns(capacity, old(elements), turns[..n]) == Got(r) + elements
      ensures r == StillWaiting || (r.Done? && r.value.Some?)
    {
      r, n := TryDequeue(Forever, turns);
    }

    // The queue is looked at once more after the loop, and the others may act in between: what is
    // returned is what they have made of the queue that was seen empty, or of that at the end of the time.
    method WaitEmpty(timeout: Timeout, turns: seq<Turn<E>>, afterwards: seq<Attempt<E>>)
      returns (r: Response<bool>, ghost n: nat, ghost end: End)
      requires Valid()
      modifies this
      ensures Valid()
      ensures WaitEmptySpec(capacity, old(log), log, timeout, clock - old(clock), r)
      ensures r.StillWaiting? ==> UsedUp(timeout, clock - old(clock), turns)
      ensures Ends(Emptiness, capacity, old(elements), timeout, turns, n, end) && (end.Still? <==> r.StillWaiting?)
      ensures r.Done? ==> elements == Afterwards(capacity, AfterTurns(capacity, old(elements), turns[..n]), afterwards)
      ensures r.StillWaiting? ==> elements == AfterTurns(capacity, old(elements), turns[..n])
      ensures timeout.Forever? && r.Done? ==> (r.value <==> Afterwards(capacity, [], afterwards) == [])
      ensures old(elements) == [] ==> r == Done(Afterwards(capacity, [], afterwards) == [])
    {
      LoopBegins(log, timeout, clock, turns);
      WaitBegins(Emptiness, capacity, elements, timeout, turns);
      hide Span, Charged, Gaps, Contents, Legal, OnlyOthers, Budget, TimeUp, UsedUp, Charge, AfterTurns, Afterwards, Tried, Waited, InTime;
      var t := timeout;
      var start: nat := clock;
      var k := 0;
      n, end := 0, Ready;
      while elements != []
        invariant 0 <= k <= |turns| && n == k && end.Ready?
        invariant Valid() && OnlyOthers(old(log), log) && old(clock) <= start <= clock
        invariant elements == AfterTurns(capacity, old(elements), turns[..k])
        invariant Waited(Emptiness, capacity, old(elements), timeout, turns, k) && InTime(timeout, turns, k)
        invariant Budget(timeout, t, Charged(turns[..k]), old(clock), start)
        invariant clock == start == old(clock) + Charged(turns[..k]) + Gaps(turns[..k])
        invariant old(elements) == [] ==> k == 0
        decreases |turns| - k
      {
        if k == |turns| {
          assert turns[..k] == turns;
          StillInTime(timeout, t, old(clock), start, turns);
          return StillWaiting, n, Still;
        }
        ghost var before := log;
        WaitStep(Emptiness, capacity, old(elements), timeout, turns, k);
        Others(turns[k].others);
        OthersTrans(old(log), before, log);
        clock := clock + turns[k].slept + turns[k].read;
        k := k + 1;
        n := k;
        TurnEnds(timeout, t, old(clock), start, turns, k - 1, clock);
        var elapsed := clock - start;
        if !Below(elapsed, t) {
          NeverForever(timeout, clock - old(clock));
          end := OutOfTime;
          break;
        }
        t := Charge(t, elapsed);
        clock := clock + turns[k - 1].restart;
        start := clock;
      }
      ghost var seen := log;
      Others(afterwards);
      OthersTrans(old(log), seen, log);
      if Contents(seen) == [] {
        SeenEmpty(old(log), seen, log);
      }
      r := Done(elements == []);
    }
  }

  predicate NobodyPuts<E>(attempts: seq<Attempt<E>>) {
    forall i :: 0 <= i < |attempts| ==> !attempts[i].Put?
  }

  lemma {:induction false} StaysEmpty<E>(capacity: nat, attempts: seq<Attempt<E>>)
    requires NobodyPuts(attempts)
    ensures Afterwards(capacity, [], attempts) == []
    decreases |attempts|
  {
    if attempts != [] {
      StaysEmpty(capacity, attempts[..|attempts| - 1]);
    }
  }

  // wait_empty without a timeout, on a new queue: an element put in between the loop and the last
  // look makes it return false.
  method UnlimitedWaitReturnsFalse<E>(size: nat, e: E) returns (r: Response<bool>)
    requires size > 0
    ensures r == Done(false)
  {
    var queue := new CrossbeamBlockingQueue<E>(size);
    assert Afterwards(size, [], [Put(e)]) == [e] by {
      OneMoreTried(size, [], [Put(e)], 0);
      assert [Put(e)][..1] == [Put(e)] && [Put(e)][..0] == [];
    }
    ghost var n, end;
    r, n, end := queue.WaitEmpty(Forever, [], [Put(e)]);
  }

  // Exactly when a caller without a timeout may rely on the value: when nobody puts anything in.
  lemma LastLookReliableIff<E>(capacity: nat, e: E, mayPut: bool)
    requires capacity > 0
    ensures
      (forall attempts: seq<Attempt<E>> :: mayPut || NobodyPuts(attempts) ==> Afterwards(capacity, [], attempts) == [])
      <==> !mayPut
  {
    if mayPut {
      OneMoreTried(capacity, [], [Put(e)], 0);
      assert [Put(e)][..1] == [Put(e)] && [Put(e)][..0] == [];
    } else {
      forall attempts: seq<Attempt<E>> | NobodyPuts(attempts) ensures Afterwards(capacity, [], attempts) == [] {
        StaysEmpty(capacity, attempts);
      }
    }
  }
}
