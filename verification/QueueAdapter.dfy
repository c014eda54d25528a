// BlockingQueueAdapter: whichever queue is inside, a client sees the one specification of Fifo.
module QueueAdapter {

  import opened Wrappers
  import opened Fifo
  import opened BlockingQueueMonitor
  import opened CrossbeamQueue

  datatype BlockingQueueAdapter<E> =
    | Blocking(blockingQueue: BlockingQueue<E>)
    | Crossbeam(crossbeamBlockingQueue: CrossbeamBlockingQueue<E>)
  {
    ghost function Repr(): set<object> {
      match this
      case Blocking(q) => {q}
      case Crossbeam(q) => {q}
    }

    ghost predicate Valid()
      reads Repr()
    {
      match this
      case Blocking(q) => q.Valid()
      case Crossbeam(q) => q.Valid()
    }

    ghost function Log(): seq<Event<E>>
      reads Repr()
    {
      match this
      case Blocking(q) => q.log
      case Crossbeam(q) => q.log
    }

    function Clock(): nat
      reads Repr()
    {
      match this
      case Blocking(q) => q.clock
      case Crossbeam(q) => q.clock
    }

    function Elements(): seq<E>
      reads Repr()
    {
      match this
      case Blocking(q) => q.elements
      case Crossbeam(q) => q.elements
    }

    function Capacity(): nat {
      match this
      case Blocking(q) => q.capacity
      case Crossbeam(q) => q.capacity
    }

    method Len() returns (n: nat)
      requires Valid()
      ensures n == |Contents(Log())|
    {
      match this
      case Blocking(q) => n := q.Len();
      case Crossbeam(q) => n := q.Len();
    }

    method IsEmpty() returns (b: bool)
      requires Valid()
      ensures b <==> Contents(Log()) == []
    {
      match this
      case Blocking(q) => b := q.IsEmpty();
      case Crossbeam(q) => b := q.IsEmpty();
    }

    method IsFull() returns (b: bool)
      requires Valid()
      ensures b <==> |Contents(Log())| == Capacity()
    {
      match this
      case Blocking(q) => b := q.IsFull();
      case Crossbeam(q) => b := q.IsFull();
    }

    method TryEnqueue(e: E, timeout: Timeout, turns: seq<Turn<E>>) returns (r: Response<Option<E>>, ghost n: nat)
      requires Valid()
      modifies Repr()
      ensures Valid()
      ensures EnqueueSpec(Capacity(), old(Log()), Log(), e, timeout, Clock() - old(Clock()), r)
      ensures r.StillWaiting? ==> UsedUp(timeout, Clock() - old(Clock()), turns)
      ensures Ends(Room, Capacity(), old(Elements()), timeout, turns, n, EnqueueEnd(r))
      ensures Elements() == AfterTurns(Capacity(), old(Elements()), turns[..n]) + if r == Done(None) then [e] else []
      ensures Met(Room, Capacity(), old(Elements())) ==> r == Done(None) && Log() == old(Log()) + [Push(true, e)]
    {
      match this
      case Blocking(q) =>
        LegalIsFifo(q.capacity, q.log);
        r, n := q.TryEnqueue(e, timeout, turns);
      case Crossbeam(q) => r, n := q.TryEnqueue(e, timeout, turns);
    }

    method Enqueue(e: E, turns: seq<Turn<E>>) returns (r: Response<Option<E>>, ghost n: nat)
      requires Valid()
      modifies Repr()
      ensures Valid()
      ensures EnqueueSpec(Capacity(), old(Log()), Log(), e, Forever, Clock() - old(Clock()), r)
      ensures r.StillWaiting? ==> UsedUp(Forever, Clock() - old(Clock()), turns)
      ensures Ends(Room, Capacity(), old(Elements()), Forever, turns, n, EnqueueEnd(r))
      ensures Elements() == AfterTurns(Capacity(), old(Elements()), turns[..n]) + if r == Done(None) then [e] else []
    {
      match this
      case Blocking(q) => r, n := q.Enqueue(e, turns);
      case Crossbeam(q) => r, n := q.Enqueue(e, turns);
    }

    method TryDequeue(timeout: Timeout, turns: seq<Turn<E>>) returns (r: Response<Option<E>>, ghost n: nat)
      requires Valid()
      modifies Repr()
      ensures Valid()
      ensures DequeueSpec(Capacity(), old(Log()), Log(), timeout, Clock() - old(Clock()), r)
      ensures r.StillWaiting? ==> UsedUp(timeout, Clock() - old(Clock()), turns)
      ensures Ends(Element, Capacity(), old(Elements()), timeout, turns, n, DequeueEnd(r))
      ensures AfterTurns(Capacity(), old(Elements()), turns[..n]) == Got(r) + Elements()
      ensures old(Elements()) != [] ==>
        r == Done(Some(old(Elements())[0])) && Log() == old(Log()) + [Pop(true, old(Elements())[0])]
    {
      match this
      case Blocking(q) => r, n := q.TryDequeue(timeout, turns);
      case Crossbeam(q) => r, n := q.TryDequeue(timeout, turns);
    }

    method Dequeue(turns: seq<Turn<E>>) returns (r: Response<Option<E>>, ghost n: nat)
      requires Valid()
      modifies Repr()
      ensures Valid()
      ensures DequeueSpec(Capacity(), old(Log()), Log(), Forever, Clock() - old(Clock()), r)
      ensures r.StillWaiting? ==> UsedUp(Forever, Clock() - old(Clock()), turns)
      ensures Ends(Element, Capacity(), old(Elements()), Forever, turns, n, DequeueEnd(r))
      ensures AfterTurns(Capacity(), old(Elements()), turns[..n]) == Got(r) + Elements()
    {
      match this
      case Blocking(q) => r, n := q.Dequeue(turns);
      case Crossbeam(q) => r, n := q.Dequeue(turns);
    }

    method WaitEmpty(timeout: Timeout, turns: seq<Turn<E>>, afterwards: seq<Attempt<E>>)
      returns (r: Response<bool>, ghost n: nat, ghost end: End)
      requires Valid()
      modifies Repr()
      ensures Valid()
      ensures WaitEmptySpec(Capacity(), old(Log()), Log(), timeout, Clock() - old(Clock()), r)
      ensures r.StillWaiting? ==> UsedUp(timeout, Clock() - old(Clock()), turns)
      ensures Ends(Emptiness, Capacity(), old(Elements()), timeout, turns, n, end) && (end.Still? <==> r.StillWaiting?)
      ensures var waited := AfterTurns(Capacity(), old(Elements()), turns[..n]);
        Elements() == if Crossbeam? && r.Done? then Afterwards(Capacity(), waited, afterwards) else waited
      ensures timeout.Forever? && r.Done? ==> (r.value <==> Blocking? || Afterwards(Capacity(), [], afterwards) == [])
      ensures old(Elements()) == [] ==> r == Done(Blocking? || Afterwards(Capacity(), [], afterwards) == [])
    {
      match this
      case Blocking(q) => r, n, end := q.WaitEmpty(timeout, turns);
      case Crossbeam(q) => r, n, end := q.WaitEmpty(timeout, turns, afterwards);
    }
  }

  // What a client may rely on, whichever queue is inside: an enqueue without a timeout that returns
  // has put its element last, a dequeue without a timeout that returns has taken the first one, and
  // the whole history is first in, first out and within the capacity.
  lemma EnqueueMeaning<E>(capacity: nat, before: seq<Event<E>>, after: seq<Event<E>>, e: E, elapsed: int, r: Response<Option<E>>)
    requires EnqueueSpec(capacity, before, after, e, Forever, elapsed, r) && r.Done?
    ensures r.value == None && Contents(after) != [] && Contents(after)[|Contents(after)| - 1] == e
    ensures Pushed(after) == Popped(after) + Contents(after)
    ensures capacity > 0 ==> |Contents(after)| <= capacity
  {
    LegalIsFifo(capacity, after);
  }

  lemma DequeueMeaning<E>(capacity: nat, before: seq<Event<E>>, after: seq<Event<E>>, elapsed: int, r: Response<Option<E>>)
    requires DequeueSpec(capacity, before, after, Forever, elapsed, r) && r.Done?
    ensures r.value.Some? && Popped(after) != [] && Popped(after)[|Popped(after)| - 1] == r.value.value
    ensures |Popped(after)| <= |Pushed(after)| && Popped(after) == Pushed(after)[..|Popped(after)|]
  {
    LegalIsFifo(capacity, after);
  }
}
