// The specification both queues meet: an atomic bounded FIFO, as a log of the pushes and pops that
// took effect, with those of the caller told apart from those of the other threads.
module Fifo {

  import opened Wrappers

  // Duration::MAX stands for a wait that never expires.
  datatype Timeout = Finite(d: nat) | Forever

  datatype Event<E> = Push(mine: bool, e: E) | Pop(mine: bool, e: E)

  // What another thread tries while the caller waits; it has no effect when the queue cannot do it.
  datatype Attempt<E> = Put(e: E) | Get

  // One turn of a wait or retry loop: what the others do meanwhile, how long the wait lasts, whether
  // the timer is what ends it, and how far the clock gets before it is read and before it is read again.
  datatype Turn<E> = Turn(others: seq<Attempt<E>>, slept: nat, timer: bool, read: nat, restart: nat)

  // A call has returned, or it is still waiting when the turns it was given are used up.
  datatype Response<+R> = Done(value: R) | StillWaiting

  ghost function Contents<E>(log: seq<Event<E>>): seq<E> {
    if log == [] then []
    else
      var before := Contents(log[..|log| - 1]);
      match log[|log| - 1]
      case Push(_, e) => before + [e]
      case Pop(_, _) => if before == [] then [] else before[1..]
  }

  // Each push found room, and each pop found its element at the front. Capacity 0 sets no bound:
  // there the full flag of BlockingQueue never rises.
  ghost predicate Legal<E>(capacity: nat, log: seq<Event<E>>) {
    log == [] ||
    (Legal(capacity, log[..|log| - 1]) &&
     var before := Contents(log[..|log| - 1]);
     match log[|log| - 1]
     case Push(_, _) => capacity > 0 ==> |before| < capacity
     case Pop(_, e) => before != [] && e == before[0])
  }

  ghost function Pushed<E>(log: seq<Event<E>>): seq<E> {
    if log == [] then []
    else Pushed(log[..|log| - 1]) + if log[|log| - 1].Push? then [log[|log| - 1].e] else []
  }

  ghost function Popped<E>(log: seq<Event<E>>): seq<E> {
    if log == [] then []
    else Popped(log[..|log| - 1]) + if log[|log| - 1].Pop? then [log[|log| - 1].e] else []
  }

  // First in, first out, and never more than the capacity inside.
  lemma {:induction false} LegalIsFifo<E>(capacity: nat, log: seq<Event<E>>)
    requires Legal(capacity, log)
    ensures Pushed(log) == Popped(log) + Contents(log)
    ensures capacity > 0 ==> |Contents(log)| <= capacity
    decreases |log|
  {
    if log != [] {
      LegalIsFifo(capacity, log[..|log| - 1]);
    }
  }

  ghost predicate NoneMine<E>(events: seq<Event<E>>) {
    forall i :: 0 <= i < |events| ==> !events[i].mine
  }

  // Between `before` and `after` only other threads have acted.
  ghost predicate OnlyOthers<E>(before: seq<Event<E>>, after: seq<Event<E>>) {
    before <= after && NoneMine(after[|before|..])
  }

  ghost predicate TimeUp(timeout: Timeout, elapsed: int) {
    timeout.Finite? && elapsed >= timeout.d
  }

  // try_enqueue: one push of the caller's element after whatever the others did; or, not before
  // the timeout, no push and the element back.
  ghost predicate EnqueueSpec<E>(capacity: nat, before: seq<Event<E>>, after: seq<Event<E>>,
                                       e: E, timeout: Timeout, elapsed: int, r: Response<Option<E>>) {
    && Legal(capacity, after)
    && match r
       case Done(None) =>
         after != [] && after[|after| - 1] == Push(true, e) && |before| < |after| && OnlyOthers(before, after[..|after| - 1])
       case Done(Some(back)) => back == e && OnlyOthers(before, after) && TimeUp(timeout, elapsed)
       case StillWaiting => OnlyOthers(before, after) && |Contents(after)| == capacity
  }

  // try_dequeue: one pop of the caller after whatever the others did; or, not before the timeout, nothing.
  ghost predicate DequeueSpec<E>(capacity: nat, before: seq<Event<E>>, after: seq<Event<E>>,
                                       timeout: Timeout, elapsed: int, r: Response<Option<E>>) {
    && Legal(capacity, after)
    && match r
       case Done(Some(e)) =>
         after != [] && after[|after| - 1] == Pop(true, e) && |before| < |after| && OnlyOthers(before, after[..|after| - 1])
       case Done(None) => OnlyOthers(before, after) && TimeUp(timeout, elapsed)
       case StillWaiting => OnlyOthers(before, after) && Contents(after) == []
  }

  // The queue was empty at some moment between `before` and `after`.
  ghost predicate WasEmpty<E>(before: seq<Event<E>>, after: seq<Event<E>>) {
    exists n :: |before| <= n <= |after| && Contents(after[..n]) == []
  }

  // wait_empty: changes nothing, and returns because the queue was seen empty or time was up.
  ghost predicate WaitEmptySpec<E>(capacity: nat, before: seq<Event<E>>, after: seq<Event<E>>,
                                         timeout: Timeout, elapsed: int, r: Response<bool>) {
    && Legal(capacity, after) && OnlyOthers(before, after)
    && match r
       case Done(b) => (b <==> Contents(after) == []) && (WasEmpty(before, after) || TimeUp(timeout, elapsed))
       case StillWaiting => Contents(after) != []
  }

  lemma OthersSelf<E>(log: seq<Event<E>>)
    ensures OnlyOthers(log, log)
  {
  }

  lemma OthersTrans<E>(a: seq<Event<E>>, b: seq<Event<E>>, c: seq<Event<E>>)
    requires OnlyOthers(a, b) && OnlyOthers(b, c)
    ensures OnlyOthers(a, c)
  {
    assert c[|a|..] == b[|a|..] + c[|b|..];
  }

  lemma OneMore<E>(capacity: nat, log: seq<Event<E>>, ev: Event<E>)
    requires Legal(capacity, log)
    requires ev.Push? && capacity > 0 ==> |Contents(log)| < capacity
    requires ev.Pop? ==> Contents(log) != [] && ev.e == Contents(log)[0]
    ensures Legal(capacity, log + [ev])
    ensures Contents(log + [ev]) == if ev.Push? then Contents(log) + [ev.e] else Contents(log)[1..]
    ensures !ev.mine ==> OnlyOthers(log, log + [ev])
  {
    assert (log + [ev])[..|log|] == log;
  }

  // The timeout budget of all the wait loops: what has been charged and what is left make up the
  // timeout, and what has been charged has passed by the clock.
  ghost predicate Budget(timeout: Timeout, t: Timeout, charged: nat, begun: nat, start: nat) {
    && (timeout.Forever? ==> t.Forever?)
    && (timeout.Finite? ==> t.Finite? && charged + t.d == timeout.d)
    && begun + charged <= start
  }

  predicate Below(elapsed: nat, t: Timeout) {
    t.Finite? ==> elapsed < t.d
  }

  function Charge(t: Timeout, elapsed: nat): Timeout
    requires Below(elapsed, t)
  {
    if t.Finite? then Finite(t.d - elapsed) else Forever
  }

  // The time that the loops charge: what each wait lasts until the clock is read.
  function Charged<E>(turns: seq<Turn<E>>): nat {
    if turns == [] then 0
    else Charged(turns[..|turns| - 1]) + turns[|turns| - 1].slept + turns[|turns| - 1].read
  }

  // The time between the two readings of the clock, which no loop charges.
  function Gaps<E>(turns: seq<Turn<E>>): nat {
    if turns == [] then 0 else Gaps(turns[..|turns| - 1]) + turns[|turns| - 1].restart
  }

  // How long a call that uses up all its turns lasts.
  function Span<E>(turns: seq<Turn<E>>): nat {
    Charged(turns) + Gaps(turns)
  }

  lemma SpanStep<E>(turns: seq<Turn<E>>, k: nat)
    requires k < |turns|
    ensures Charged(turns[..k + 1]) == Charged(turns[..k]) + turns[k].slept + turns[k].read
    ensures Gaps(turns[..k + 1]) == Gaps(turns[..k]) + turns[k].restart
  {
    assert turns[..k + 1][..k] == turns[..k];
  }

  // What one attempt makes of the elements.
  function Tried<E>(capacity: nat, elements: seq<E>, attempt: Attempt<E>): seq<E> {
    match attempt
    case Put(e) => if capacity == 0 || |elements| < capacity then elements + [e] else elements
    case Get => if elements == [] then [] else elements[1..]
  }

  // What a sequence of attempts makes of the elements.
  function Afterwards<E>(capacity: nat, elements: seq<E>, attempts: seq<Attempt<E>>): seq<E> {
    if attempts == [] then elements
    else Tried(capacity, Afterwards(capacity, elements, attempts[..|attempts| - 1]), attempts[|attempts| - 1])
  }

  lemma OneMoreTried<E>(capacity: nat, elements: seq<E>, attempts: seq<Attempt<E>>, k: nat)
    requires k < |attempts|
    ensures Afterwards(capacity, elements, attempts[..k + 1]) ==
      Tried(capacity, Afterwards(capacity, elements, attempts[..k]), attempts[k])
  {
    assert attempts[..k + 1][..k] == attempts[..k];
  }

  // What the others make of the elements in these turns.
  function AfterTurns<E>(capacity: nat, elements: seq<E>, turns: seq<Turn<E>>): seq<E> {
    if turns == [] then elements
    else Afterwards(capacity, AfterTurns(capacity, elements, turns[..|turns| - 1]), turns[|turns| - 1].others)
  }

  // What a call waits for.
  datatype Need = Room | Element | Emptiness

  predicate Met<E>(need: Need, capacity: nat, elements: seq<E>) {
    match need
    case Room => capacity == 0 || |elements| < capacity
    case Element => elements != []
    case Emptiness => elements == []
  }

  // The call has looked before each of the first n turns and not found what it needs, and the time was
  // not up after any of them but the last.
  ghost predicate Waited<E>(need: Need, capacity: nat, elements: seq<E>, timeout: Timeout, turns: seq<Turn<E>>, n: nat) {
    && n <= |turns|
    && (forall m :: 0 <= m < n ==> !Met(need, capacity, AfterTurns(capacity, elements, turns[..m])))
    && (forall m :: 0 < m < n ==> !TimeUp(timeout, Charged(turns[..m])))
  }

  // After the last of n turns the time was not up.
  ghost predicate InTime<E>(timeout: Timeout, turns: seq<Turn<E>>, n: nat) {
    0 < n <= |turns| ==> !TimeUp(timeout, Charged(turns[..n]))
  }

  // How a call ends that has waited n turns: at the first look that finds what it needs with the time not
  // up, or at the first turn after which the time is up, without another look.
  datatype End = Ready | OutOfTime | Still

  ghost predicate Ends<E>(need: Need, capacity: nat, elements: seq<E>, timeout: Timeout, turns: seq<Turn<E>>, n: nat, end: End) {
    && Waited(need, capacity, elements, timeout, turns, n)
    && match end
       case Ready => Met(need, capacity, AfterTurns(capacity, elements, turns[..n])) && InTime(timeout, turns, n)
       case OutOfTime => n > 0 && TimeUp(timeout, Charged(turns[..n]))
       case Still => n == |turns| && !Met(need, capacity, AfterTurns(capacity, elements, turns)) && InTime(timeout, turns, n)
  }

  // The end is determined by the turns.
  lemma OneEnd<E>(need: Need, capacity: nat, elements: seq<E>, timeout: Timeout, turns: seq<Turn<E>>,
                  n: nat, end: End, n': nat, end': End)
    requires Ends(need, capacity, elements, timeout, turns, n, end) && Ends(need, capacity, elements, timeout, turns, n', end')
    ensures n == n' && end == end'
  {
    assert turns[..|turns|] == turns;
  }

  lemma WaitBegins<E>(need: Need, capacity: nat, elements: seq<E>, timeout: Timeout, turns: seq<Turn<E>>)
    ensures Waited(need, capacity, elements, timeout, turns, 0) && InTime(timeout, turns, 0)
    ensures AfterTurns(capacity, elements, turns[..0]) == elements
  {
  }

  lemma WaitStep<E>(need: Need, capacity: nat, elements: seq<E>, timeout: Timeout, turns: seq<Turn<E>>, k: nat)
    requires Waited(need, capacity, elements, timeout, turns, k) && InTime(timeout, turns, k) && k < |turns|
    requires !Met(need, capacity, AfterTurns(capacity, elements, turns[..k]))
    ensures Waited(need, capacity, elements, timeout, turns, k + 1)
    ensures AfterTurns(capacity, elements, turns[..k + 1]) ==
      Afterwards(capacity, AfterTurns(capacity, elements, turns[..k]), turns[k].others)
  {
    hide Met, Afterwards, TimeUp;
    assert turns[..k + 1][..k] == turns[..k];
  }

  // A call still waiting has used all its turns, and its time was not up, as far as it measures it.
  ghost predicate UsedUp<E>(timeout: Timeout, elapsed: int, turns: seq<Turn<E>>) {
    elapsed == Span(turns) && (timeout.Finite? ==> Span(turns) <= timeout.d + Gaps(turns))
  }

  // A turn whose timer fires ends with the time up.
  lemma TimerEnds<E>(timeout: Timeout, t: Timeout, begun: nat, start: nat, turns: seq<Turn<E>>, k: nat)
    requires k < |turns| && Budget(timeout, t, Charged(turns[..k]), begun, start) && !Below(turns[k].slept, t)
    ensures TimeUp(timeout, Charged(turns[..k + 1])) && TimeUp(timeout, start + turns[k].slept - begun)
  {
    SpanStep(turns, k);
  }

  // A turn after which the clock is read: with time left the wait is charged, which keeps the budget;
  // otherwise the time is up, by what has been charged and by the clock.
  lemma TurnEnds<E>(timeout: Timeout, t: Timeout, begun: nat, start: nat, turns: seq<Turn<E>>, k: nat, now: nat)
    requires k < |turns| && Budget(timeout, t, Charged(turns[..k]), begun, start)
    requires start == begun + Charged(turns[..k]) + Gaps(turns[..k]) && now == start + turns[k].slept + turns[k].read
    ensures !Below(now - start, t) ==> TimeUp(timeout, Charged(turns[..k + 1])) && TimeUp(timeout, now - begun)
    ensures Below(now - start, t) ==>
      && InTime(timeout, turns, k + 1)
      && Budget(timeout, Charge(t, now - start), Charged(turns[..k + 1]), begun, now + turns[k].restart)
      && now + turns[k].restart == begun + Charged(turns[..k + 1]) + Gaps(turns[..k + 1])
  {
    SpanStep(turns, k);
  }

  lemma NeverForever(timeout: Timeout, elapsed: int)
    requires TimeUp(timeout, elapsed)
    ensures timeout.Finite?
  {
  }

  // How the results of try_enqueue and try_dequeue show the end.
  function EnqueueEnd<E>(r: Response<Option<E>>): End {
    if r.StillWaiting? then Still else if r.value.None? then Ready else OutOfTime
  }

  function DequeueEnd<E>(r: Response<Option<E>>): End {
    if r.StillWaiting? then Still else if r.value.Some? then Ready else OutOfTime
  }

  // What a dequeue took.
  function Got<E>(r: Response<Option<E>>): seq<E> {
    if r.Done? && r.value.Some? then [r.value.value] else []
  }

  // Before the first turn nothing has happened and nothing has been charged.
  lemma LoopBegins<E>(log: seq<Event<E>>, timeout: Timeout, clock: nat, turns: seq<Turn<E>>)
    ensures OnlyOthers(log, log) && Budget(timeout, timeout, 0, clock, clock)
    ensures Charged(turns[..0]) == 0 && Gaps(turns[..0]) == 0
  {
  }

  // With all turns used and the budget kept, the time is not up, as far as the loop measures it.
  lemma StillInTime<E>(timeout: Timeout, t: Timeout, begun: nat, now: nat, turns: seq<Turn<E>>)
    requires Budget(timeout, t, Charged(turns), begun, now)
    requires now == begun + Charged(turns) + Gaps(turns)
    ensures UsedUp(timeout, now - begun, turns)
  {
  }

  // After the others' events, one event of the caller.
  lemma OwnEvent<E>(before: seq<Event<E>>, between: seq<Event<E>>, ev: Event<E>)
    requires OnlyOthers(before, between)
    ensures var after := between + [ev];
      |before| < |after| && after[|after| - 1] == ev && OnlyOthers(before, after[..|after| - 1])
  {
    assert (between + [ev])[..|between|] == between;
  }

  lemma SeenEmpty<E>(before: seq<Event<E>>, seen: seq<Event<E>>, after: seq<Event<E>>)
    requires OnlyOthers(before, seen) && OnlyOthers(seen, after) && Contents(seen) == []
    ensures WasEmpty(before, after)
  {
    assert after[..|seen|] == seen;
  }
}
