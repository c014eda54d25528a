// BlockingQueue as a monitor. The thread that runs a method holds the flags mutex from the call of
// lock() to its return, except inside wait_timeout, where the other threads act.
module BlockingQueueMonitor {

  import opened Wrappers
  import opened Fifo

  class BlockingQueue<E> {
    const capacity: nat
    var elements: seq<E>
    var empty: bool                   // QueueFlags
    var full: bool
    var clock: nat                    // Instant::now()
    ghost var log: seq<Event<E>>

    ghost predicate Valid()
      reads this
    {
      && Legal(capacity, log)
      && elements == Contents(log)
      && (empty <==> elements == [])
      && (full <==> elements != [] && |elements| == capacity)
    }

    constructor (capacity: nat)
      ensures Valid() && this.capacity == capacity && elements == [] && log == []
    {
      this.capacity := capacity;
      elements, empty, full, clock, log := [], true, false, 0, [];
    }

    method Len() returns (n: nat)
      requires Valid()
      ensures n == |Contents(log)|
    {
      n := |elements|;
    }

    method IsEmpty() returns (b: bool)
      requires Valid()
      ensures b <==> Contents(log) == []
    {
      b := elements == [];
    }

    method IsFull() returns (b: bool)
      requires Valid()
      ensures b <==> |Contents(log)| == capacity
    {
      b := |elements| == capacity;
    }

    // The end of try_enqueue, both mutexes held.
    method PushBack(mine: bool, e: E)
      requires Valid() && !full
      modifies this
      ensures Valid() && clock == old(clock)
      ensures log == old(log) + [Push(mine, e)] && elements == old(elements) + [e]
    {
      LegalIsFifo(capacity, log);
      OneMore(capacity, log, Push(mine, e));
      log := log + [Push(mine, e)];
      elements := elements + [e];
      empty := false;
      if |elements| == capacity {
        full := true;
      }
    }

    // The end of try_dequeue, both mutexes held.
    method PopFront(mine: bool) returns (e: E)
      requires Valid() && !empty
      modifies this
      ensures Valid() && clock == old(clock)
      ensures old(elements) != [] && e == old(elements)[0]
      ensures log == old(log) + [Pop(mine, e)] && old(elements) == [e] + elements
    {
      e := elements[0];
      LegalIsFifo(capacity, log);
      OneMore(capacity, log, Pop(mine, e));
      log := log + [Pop(mine, e)];
      elements := elements[1..];
      full := false;
      if elements == [] {
        empty := true;
      }
    }

    // What another thread gets done while nobody holds the flags mutex.
    method Other(attempt: Attempt<E>)
      requires Valid()
      modifies this
      ensures Valid() && clock == old(clock) && OnlyOthers(old(log), log)
      ensures elements == Tried(capacity, old(elements), attempt)
    {
      LegalIsFifo(capacity, log);
      match attempt {
        case Put(e) =>
          if !full {
            PushBack(false, e);
          }
        case Get =>
          if !empty {
            var _ := PopFront(false);
          }
      }
    }

    method Others(attempts: seq<Attempt<E>>)
      requires Valid()
      modifies this
      ensures Valid() && clock == old(clock) && OnlyOthers(old(log), log)
      ensures elements == Afterwards(capacity, old(elements), attempts)
    {
      hide Contents, Legal, OnlyOthers, Tried;
      OthersSelf(log);
      for k := 0 to |attempts|
        invariant Valid() && clock == old(clock) && OnlyOthers(old(log), log)
        invariant elements == Afterwards(capacity, old(elements), attempts[..k])
      {
        ghost var before := log;
        Other(attempts[k]);
        OthersTrans(old(log), before, log);
        OneMoreTried(capacity, old(elements), attempts, k);
      }
      assert attempts[..|attempts|] == attempts;
    }

    // Condvar::wait_timeout: lets the others act; reports a timeout only if the wait was that long.
    method WaitTimeout(t: Timeout, turn: Turn<E>) returns (timedOut: bool)
      requires Valid()
      modifies this
      ensures Valid() && OnlyOthers(old(log), log) && clock == old(clock) + turn.slept
      ensures elements == Afterwards(capacity, old(elements), turn.others)
      ensures timedOut ==> !Below(clock - old(clock), t)
    {
      Others(turn.others);
      clock := clock + turn.slept;
      timedOut := turn.timer && t.Finite? && turn.slept >= t.d;
    }

    method TryEnqueue(e: E, timeout: Timeout, turns: seq<Turn<E>>) returns (r: Response<Option<E>>, ghost n: nat)
      requires Valid()
      modifies this
      ensures Valid()
      ensures EnqueueSpec(capacity, old(log), log, e, timeout, clock - old(clock), r)
      ensures r.StillWaiting? ==> UsedUp(timeout, clock - old(clock), turns)
      ensures Ends(Room, capacity, old(elements), timeout, turns, n, EnqueueEnd(r))
      ensures elements == AfterTurns(capacity, old(elements), turns[..n]) + if r == Done(None) then [e] else []
      ensures !old(full) ==> r == Done(None) && log == old(log) + [Push(true, e)]
    {
      var timedOut := false;
      LoopBegins(log, timeout, clock, turns);
      WaitBegins(Room, capacity, elements, timeout, turns);
      hide Span, Charged, Gaps, Contents, Legal, OnlyOthers, Budget, TimeUp, UsedUp, Charge, AfterTurns, Afterwards, Waited, InTime;
      var t := timeout;
      var start: nat := clock;
      var k := 0;
      n := 0;
      while full && !timedOut
        invariant 0 <= k <= |turns| && n == k
        invariant Valid() && OnlyOthers(old(log), log) && old(clock) <= start <= clock
        invariant elements == AfterTurns(capacity, old(elements), turns[..k])
        invariant Waited(Room, capacity, old(elements), timeout, turns, k)
        invariant !timedOut ==> InTime(timeout, turns, k) && Budget(timeout, t, Charged(turns[..k]), old(clock), start)
        invariant !timedOut ==> clock == start == old(clock) + Charged(turns[..k]) + Gaps(turns[..k])
        invariant timedOut ==> k > 0 && TimeUp(timeout, Charged(turns[..k])) && TimeUp(timeout, clock - old(clock))
        invariant !old(full) ==> !timedOut && k == 0 && log == old(log)
        decreases |turns| - k, !timedOut
      {
        LegalIsFifo(capacity, log);
        if k == |turns| {
          assert turns[..k] == turns;
          StillInTime(timeout, t, old(clock), start, turns);
          return StillWaiting, n;
        }
        ghost var before := log;
        WaitStep(Room, capacity, old(elements), timeout, turns, k);
        timedOut := WaitTimeout(t, turns[k]);
        OthersTrans(old(log), before, log);
        k := k + 1;
        n := k;
        if timedOut {
          TimerEnds(timeout, t, old(clock), start, turns, k - 1);
          break;
        }
        clock := clock + turns[k - 1].read;
        TurnEnds(timeout, t, old(clock), start, turns, k - 1, clock);
        var elapsed := clock - start;
        if Below(elapsed, t) {
          t := Charge(t, elapsed);
          clock := clock + turns[k - 1].restart;
          start := clock;
        } else {
          timedOut := true;
        }
      }
      if timedOut {
        r := Done(Some(e));
      } else {
        ghost var before := log;
        LegalIsFifo(capacity, log);
        PushBack(true, e);
        OwnEvent(old(log), before, Push(true, e));
        r := Done(None);
      }
    }

    method Enqueue(e: E, turns: seq<Turn<E>>) returns (r: Response<Option<E>>, ghost n: nat)
      requires Valid()
      modifies this
      ensures Valid()
      ensures EnqueueSpec(capacity, old(log), log, e, Forever, clock - old(clock), r)
      ensures r.StillWaiting? ==> UsedUp(Forever, clock - old(clock), turns)
      ensures Ends(Room, capacity, old(elements), Forever, turns, n, EnqueueEnd(r))
      ensures elements == AfterTurns(capacity, old(elements), turns[..n]) + if r == Done(None) then [e] else []
      ensures r == StillWaiting || r == Done(None)
    {
      r, n := TryEnqueue(e, Forever, turns);
    }

    method TryDequeue(timeout: Timeout, turns: seq<Turn<E>>) returns (r: Response<Option<E>>, ghost n: nat)
      requires Valid()
      modifies this
      ensures Valid()
      ensures DequeueSpec(capacity, old(log), log, timeout, clock - old(clock), r)
      ensures r.StillWaiting? ==> UsedUp(timeout, clock - old(clock), turns)
      ensures Ends(Element, capacity, old(elements), timeout, turns, n, DequeueEnd(r))
      ensures AfterTurns(capacity, old(elements), turns[..n]) == Got(r) + elements
      ensures !old(empty) ==> r == Done(Some(old(elements)[0])) && log == old(log) + [Pop(true, old(elements)[0])]
    {
      var timedOut := false;
      LoopBegins(log, timeout, clock, turns);
      WaitBegins(Element, capacity, elements, timeout, turns);
      hide Span, Charged, Gaps, Contents, Legal, OnlyOthers, Budget, TimeUp, UsedUp, Charge, AfterTurns, Afterwards, Waited, InTime;
      var t := timeout;
      var start: nat := clock;
      var k := 0;
      n := 0;
      while empty && !timedOut
        invariant 0 <= k <= |turns| && n == k
        invariant Valid() && OnlyOthers(old(log), log) && old(clock) <= start <= clock
        invariant elements == AfterTurns(capacity, old(elements), turns[..k])
        invariant Waited(Element, capacity, old(elements), timeout, turns, k)
        invariant !timedOut ==> InTime(timeout, turns, k) && Budget(timeout, t, Charged(turns[..k]), old(clock), start)
        invariant !timedOut ==> clock == start == old(clock) + Charged(turns[..k]) + Gaps(turns[..k])
        invariant timedOut ==> k > 0 && TimeUp(timeout, Charged(turns[..k])) && TimeUp(timeout, clock - old(clock))
        invariant !old(empty) ==> !timedOut && k == 0 && log == old(log)
        decreases |turns| - k, !timedOut
      {
        if k == |turns| {
          assert turns[..k] == turns;
          StillInTime(timeout, t, old(clock), start, turns);
          return StillWaiting, n;
        }
        ghost var before := log;
        WaitStep(Element, capacity, old(elements), timeout, turns, k);
        timedOut := WaitTimeout(t, turns[k]);
        OthersTrans(old(log), before, log);
        k := k + 1;
        n := k;
        if timedOut {
          TimerEnds(timeout, t, old(clock), start, turns, k - 1);
          break;
        }
        clock := clock + turns[k - 1].read;
        TurnEnds(timeout, t, old(clock), start, turns, k - 1, clock);
        var elapsed := clock - start;
        if Below(elapsed, t) {
          t := Charge(t, elapsed);
          clock := clock + turns[k - 1].restart;
          start := clock;
        } else {
          timedOut := true;
        }
      }
      if timedOut {
        r := Done(None);
      } else {
        ghost var before := log;
        var e := PopFront(true);
        OwnEvent(old(log), before, Pop(true, e));
        r := Done(Some(e));
      }
    }

    method Dequeue(turns: seq<Turn<E>>) returns (r: Response<Option<E>>, ghost n: nat)
      requires Valid()
      modifies this
      ensures Valid()
      ensures DequeueSpec(capacity, old(log), log, Forever, clock - old(clock), r)
      ensures r.StillWaiting? ==> UsedUp(Forever, clock - old(clock), turns)
      ensures Ends(Element, capacity, old(elements), Forever, turns, n, DequeueEnd(r))
      ensures AfterTurns(capacity, old(elements), turns[..n]) == Got(r) + elements
      ensures r == StillWaiting || (r.Done? && r.value.Some?)
    {
      r, n := TryDequeue(Forever, turns);
    }

    method WaitEmpty(timeout: Timeout, turns: seq<Turn<E>>)
      returns (r: Response<bool>, ghost n: nat, ghost end: End)
      requires Valid()
      modifies this
      ensures Valid()
      ensures WaitEmptySpec(capacity, old(log), log, timeout, clock - old(clock), r)
      ensures r.StillWaiting? ==> UsedUp(timeout, clock - old(clock), turns)
      ensures Ends(Emptiness, capacity, old(elements), timeout, turns, n, end) && (end.Still? <==> r.StillWaiting?)
      ensures elements == AfterTurns(capacity, old(elements), turns[..n])
      ensures timeout.Forever? && r.Done? ==> r.value
      ensures old(empty) ==> r == Done(true) && log == old(log)
    {
      LoopBegins(log, timeout, clock, turns);
      WaitBegins(Emptiness, capacity, elements, timeout, turns);
      hide Span, Charged, Gaps, Contents, Legal, OnlyOthers, Budget, TimeUp, UsedUp, Charge, AfterTurns, Afterwards, Waited, InTime;
      var t := timeout;
      var start: nat := clock;
      var k := 0;
      n, end := 0, Ready;
      while !empty
        invariant 0 <= k <= |turns| && n == k && end.Ready?
        invariant Valid() && OnlyOthers(old(log), log) && old(clock) <= start <= clock
        invariant elements == AfterTurns(capacity, old(elements), turns[..k])
        invariant Waited(Emptiness, capacity, old(elements), timeout, turns, k) && InTime(timeout, turns, k)
        invariant Budget(timeout, t, Charged(turns[..k]), old(clock), start)
        invariant clock == start == old(clock) + Charged(turns[..k]) + Gaps(turns[..k])
        invariant old(empty) ==> k == 0 && log == old(log)
        decreases |turns| - k
      {
        if k == |turns| {
          assert turns[..k] == turns;
          StillInTime(timeout, t, old(clock), start, turns);
          return StillWaiting, n, Still;
        }
        ghost var before := log;
        WaitStep(Emptiness, capacity, old(elements), timeout, turns, k);
        var timedOut := WaitTimeout(t, turns[k]);
        OthersTrans(old(log), before, log);
        k := k + 1;
        n := k;
        if timedOut {
          TimerEnds(timeout, t, old(clock), start, turns, k - 1);
          end := OutOfTime;
          break;
        }
        clock := clock + turns[k - 1].read;
        TurnEnds(timeout, t, old(clock), start, turns, k - 1, clock);
        var elapsed := clock - start;
        if Below(elapsed, t) {
          t := Charge(t, elapsed);
          clock := clock + turns[k - 1].restart;
          start := clock;
        } else {
          end := OutOfTime;
          break;
        }
      }
      if end.Ready? {
        OthersSelf(log);
        SeenEmpty(old(log), log, log);
      } else {
        NeverForever(timeout, clock - old(clock));
      }
      r := Done(empty);
    }
  }
}
