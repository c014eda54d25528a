// Exactly when a sleeper can be left behind. A producer: when an enqueue may have a finite timeout.
// A consumer: when a dequeue may have one, or an enqueue may overlap wait_empty.
module MonitorStranded {

  import opened Wrappers
  import opened Monitor
  import opened MonitorWakeups

  // What the callers of a run may do: use finite timeouts in each of the three calls, and overlap
  // enqueue with wait_empty.
  datatype Callers = Callers(timedEnqueue: bool, timedDequeue: bool, timedWait: bool, overlap: bool)

  predicate MayTime(may: Callers, call: Call) {
    match call
    case Enq(_) => may.timedEnqueue
    case Deq => may.timedDequeue
    case WaitEmpty => may.timedWait
  }

  predicate MadeBy(s0: State, steps: seq<Step>, may: Callers) {
    && CanRun(s0, steps)
    && (forall st :: st in steps && st.Invoke? && st.timed ==> MayTime(may, st.call))
    && (may.overlap || KeptApart(s0, steps))
  }

  // Callers who may not overlap the two do here without wait_empty.
  predicate Permitted(st: Step, may: Callers) {
    st.Invoke? ==> (st.timed ==> MayTime(may, st.call)) && (st.call.WaitEmpty? ==> may.overlap)
  }

  ghost predicate RunsTo(s0: State, s: State, steps: seq<Step>, may: Callers) {
    CanRun(s0, steps) && Run(s0, steps) == s && forall st :: st in steps ==> Permitted(st, may)
  }

  ghost predicate Leading(s0: State, s: State, may: Callers) {
    exists steps :: RunsTo(s0, s, steps, may)
  }

  lemma LeadingStart(s: State, may: Callers)
    ensures Leading(s, s, may)
  {
    assert RunsTo(s, s, [], may);
  }

  lemma LeadingStep(s0: State, s: State, st: Step, may: Callers)
    requires Leading(s0, s, may) && Enabled(s, st) && Permitted(st, may)
    ensures Leading(s0, Apply(s, st), may)
  {
    hide Apply, Enabled;
    var steps :| RunsTo(s0, s, steps, may);
    RunOneMore(s0, steps, st);
    assert RunsTo(s0, Apply(s, st), steps + [st], may);
  }

  // Without wait_empty there is nothing for an enqueue to overlap with.
  predicate NobodyWaits(s: State) {
    forall t :: 0 <= t < |s.pcs| && InCall(s.pcs[t]) ==> !s.pcs[t].call.WaitEmpty?
  }

  lemma NobodyWaitsKept(s: State, st: Step)
    requires NobodyWaits(s) && Enabled(s, st) && (st.Invoke? ==> !st.call.WaitEmpty?)
    ensures NobodyWaits(Apply(s, st))
  {
    hide Apply, Enabled;
    forall u: nat | u < |Apply(s, st).pcs| && InCall(Apply(s, st).pcs[u])
      ensures !Apply(s, st).pcs[u].call.WaitEmpty?
    {
      OwnCall(s, st);
      if u != st.t {
        OtherThreads(s, st, u);
      }
    }
  }

  // The thread that steps goes on with its call, or begins one.
  lemma OwnCall(s: State, st: Step)
    requires Enabled(s, st)
    ensures st.t < |s.pcs| == |Apply(s, st).pcs|
    ensures InCall(Apply(s, st).pcs[st.t]) ==>
      if st.Invoke? then Apply(s, st).pcs[st.t].call == st.call
      else InCall(s.pcs[st.t]) && Apply(s, st).pcs[st.t].call == s.pcs[st.t].call
  {
  }

  lemma {:induction false} WithoutWaitsApart(s: State, steps: seq<Step>)
    requires NobodyWaits(s) && CanRun(s, steps)
    requires forall st :: st in steps && st.Invoke? ==> !st.call.WaitEmpty?
    ensures KeptApart(s, steps)
    decreases |steps|
  {
    hide Apply, Enabled;
    if steps != [] {
      assert steps[0] in steps;
      NobodyWaitsKept(s, steps[0]);
      assert forall st :: st in steps[1..] ==> st in steps;
      WithoutWaitsApart(Apply(s, steps[0]), steps[1..]);
    }
  }

  // Whole calls as single moves

  // Thread t makes a call and falls asleep.
  lemma FallsAsleep(s0: State, s: State, t: nat, call: Call, timed: bool, may: Callers) returns (r: State)
    requires Leading(s0, s, may) && s.holder.None? && t < |s.pcs| && s.pcs[t].Idle? && Blocked(s, call)
    requires Permitted(Invoke(t, call, timed), may)
    ensures Leading(s0, r, may) && r == s.(pcs := s.pcs[t := Asleep(call, timed)])
  {
    r := s;
    LeadingStep(s0, r, Invoke(t, call, timed), may); r := Apply(r, Invoke(t, call, timed));
    LeadingStep(s0, r, Lock(t), may); r := Apply(r, Lock(t));
    LeadingStep(s0, r, Test(t), may); r := Apply(r, Test(t));
    assert r.pcs == s.pcs[t := Asleep(call, timed)];
  }

  predicate HasRoom(s: State) {
    !s.full && (s.cap > 0 ==> |s.elements| < s.cap)
  }

  // Thread t calls enqueue on a queue with room, with no producer asleep, and notifies the sleeper u.
  lemma Enqueues(s0: State, s: State, t: nat, e: int, u: nat, may: Callers) returns (r: State)
    requires Leading(s0, s, may) && s.holder.None? && t < |s.pcs| && s.pcs[t].Idle? && HasRoom(s)
    requires u < |s.pcs| && s.pcs[u].SleepsOnEmpty() && forall v :: 0 <= v < |s.pcs| ==> !s.pcs[v].SleepsOnFull()
    ensures Leading(s0, r, may)
    ensures r == s.(elements := s.elements + [e], empty := false, full := |s.elements| + 1 == s.cap, pushed := s.pushed + [e],
                    pcs := s.pcs[u := Woken(s.pcs[u].call, s.pcs[u].timed, false)])
  {
    r := EnqueueBegins(s0, s, t, e, may);
    LeadingStep(s0, r, Notify(t, Some(u)), may); r := Apply(r, Notify(t, Some(u)));
    r := EnqueueEnds(s0, r, t, may);
    assert r.pcs == s.pcs[u := Woken(s.pcs[u].call, s.pcs[u].timed, false)];
  }

  lemma EnqueueEnds(s0: State, s: State, t: nat, may: Callers) returns (r: State)
    requires Leading(s0, s, may) && t < |s.pcs| && s.pcs[t].Notified? && s.pcs[t].call.Enq? && !s.full
    requires forall v :: 0 <= v < |s.pcs| ==> !s.pcs[v].SleepsOnFull()
    ensures Leading(s0, r, may)
    ensures r == s.(holder := None, full := |s.elements| == s.cap, pcs := s.pcs[t := Idle])
  {
    LeadingStep(s0, s, Release(t), may); r := Apply(s, Release(t));
    assert r.pcs == s.pcs[t := Answering(s.pcs[t].result)];
    LeadingStep(s0, r, Return(t), may); r := Apply(r, Return(t));
    assert r.pcs == s.pcs[t := Idle];
  }

  lemma EnqueueBegins(s0: State, s: State, t: nat, e: int, may: Callers) returns (r: State)
    requires Leading(s0, s, may) && s.holder.None? && t < |s.pcs| && s.pcs[t].Idle? && !s.full
    ensures Leading(s0, r, may)
    ensures r == s.(elements := s.elements + [e], pushed := s.pushed + [e], holder := Some(t),
                    pcs := s.pcs[t := Changed(Enq(e), Enqueued)])
  {
    r := s;
    LeadingStep(s0, r, Invoke(t, Enq(e), false), may); r := Apply(r, Invoke(t, Enq(e), false));
    LeadingStep(s0, r, Lock(t), may); r := Apply(r, Lock(t));
    LeadingStep(s0, r, Test(t), may); r := Apply(r, Test(t));
    LeadingStep(s0, r, Change(t), may); r := Apply(r, Change(t));
    assert r.pcs == s.pcs[t := Changed(Enq(e), Enqueued)];
  }

  // A woken thread finds its time used up.
  lemma GivesUp(s0: State, s: State, t: nat, may: Callers) returns (r: State)
    requires Leading(s0, s, may) && s.holder.None? && t < |s.pcs| && s.pcs[t].Woken? && s.pcs[t].timed
    ensures Leading(s0, r, may) && r == s.(pcs := s.pcs[t := Idle])
  {
    r := s;
    LeadingStep(s0, r, RelockLate(t), may); r := Apply(r, RelockLate(t));
    LeadingStep(s0, r, GiveUp(t), may); r := Apply(r, GiveUp(t));
    LeadingStep(s0, r, Return(t), may); r := Apply(r, Return(t));
    assert r.pcs == s.pcs[t := Idle];
  }

  lemma SleepsAgain(s0: State, s: State, t: nat, may: Callers) returns (r: State)
    requires Leading(s0, s, may) && s.holder.None? && t < |s.pcs| && s.pcs[t].Woken? && !s.pcs[t].expired
    requires Blocked(s, s.pcs[t].call)
    ensures Leading(s0, r, may) && r == s.(pcs := s.pcs[t := Asleep(s.pcs[t].call, s.pcs[t].timed)])
  {
    r := s;
    LeadingStep(s0, r, Relock(t), may); r := Apply(r, Relock(t));
    LeadingStep(s0, r, Test(t), may); r := Apply(r, Test(t));
    assert r.pcs == s.pcs[t := Asleep(s.pcs[t].call, s.pcs[t].timed)];
  }

  // A woken consumer takes one of several elements, with no producer asleep.
  lemma TakesOne(s0: State, s: State, t: nat, may: Callers) returns (r: State)
    requires Leading(s0, s, may) && s.holder.None? && t < |s.pcs| && s.pcs[t] == Woken(Deq, false, false)
    requires !s.empty && |s.elements| > 1 && forall u :: 0 <= u < |s.pcs| ==> !s.pcs[u].SleepsOnFull()
    ensures Leading(s0, r, may)
    ensures r == s.(elements := s.elements[1..], popped := s.popped + [s.elements[0]], full := false,
                    pcs := s.pcs[t := Idle])
  {
    r := TakeBegins(s0, s, t, may);
    LeadingStep(s0, r, Notify(t, None), may); r := Apply(r, Notify(t, None));
    LeadingStep(s0, r, Release(t), may); r := Apply(r, Release(t));
    LeadingStep(s0, r, Return(t), may); r := Apply(r, Return(t));
    assert r.pcs == s.pcs[t := Idle];
  }

  lemma TakeBegins(s0: State, s: State, t: nat, may: Callers) returns (r: State)
    requires Leading(s0, s, may) && s.holder.None? && t < |s.pcs| && s.pcs[t] == Woken(Deq, false, false)
    requires !s.empty && s.elements != []
    ensures Leading(s0, r, may)
    ensures r == s.(elements := s.elements[1..], popped := s.popped + [s.elements[0]], holder := Some(t),
                    pcs := s.pcs[t := Changed(Deq, Dequeued(s.elements[0]))])
  {
    LeadingStep(s0, s, Relock(t), may); r := Apply(s, Relock(t));
    r := TakeFinds(s0, r, t, may);
    assert r.pcs == s.pcs[t := Changed(Deq, Dequeued(s.elements[0]))];
  }

  // At the head of its loop a consumer finds an element.
  lemma TakeFinds(s0: State, s: State, t: nat, may: Callers) returns (r: State)
    requires Leading(s0, s, may) && t < |s.pcs| && s.pcs[t] == Testing(Deq, false) && !s.empty && s.elements != []
    ensures Leading(s0, r, may)
    ensures r == s.(elements := s.elements[1..], popped := s.popped + [s.elements[0]],
                    pcs := s.pcs[t := Changed(Deq, Dequeued(s.elements[0]))])
  {
    LeadingStep(s0, s, Test(t), may); r := Apply(s, Test(t));
    LeadingStep(s0, r, Change(t), may); r := Apply(r, Change(t));
    assert r.pcs == s.pcs[t := Changed(Deq, Dequeued(s.elements[0]))];
  }

  // One of this side sleeps without a timeout of its own.
  predicate UntimedSleeper(s: State, producers: bool) {
    exists t :: 0 <= t < |s.pcs| && s.pcs[t].Asleep? && !s.pcs[t].timed && OfSide(s.pcs[t].call, producers)
  }

  // A run that leaves an untimed sleeper behind.
  ghost predicate LeavesBehind(cap: nat, threads: nat, steps: seq<Step>, producers: bool, may: Callers) {
    && MadeBy(Init(cap, threads), steps, may)
    && Stranded(Run(Init(cap, threads), steps), producers) && UntimedSleeper(Run(Init(cap, threads), steps), producers)
  }

  lemma RunFound(s0: State, s: State, may: Callers) returns (steps: seq<Step>)
    requires Leading(s0, s, may) && NobodyWaits(s0)
    ensures MadeBy(s0, steps, may) && Run(s0, steps) == s
  {
    steps :| RunsTo(s0, s, steps, may);
    if !may.overlap {
      WithoutWaitsApart(s0, steps);
    }
  }

  // A timed dequeue is enough: of two consumers asleep the timed one is notified of an element, and gives up.
  lemma ConsumerLeftByTimeout(cap: nat, threads: nat) returns (steps: seq<Step>)
    requires threads >= 3
    ensures LeavesBehind(cap, threads, steps, false, Callers(false, true, false, false))
  {
    var s0, may := Init(cap, threads), Callers(false, true, false, false);
    LeadingStart(s0, may);
    var s := FallsAsleep(s0, s0, 0, Deq, true, may);
    s := FallsAsleep(s0, s, 1, Deq, false, may);
    s := Enqueues(s0, s, 2, 7, 0, may);
    s := GivesUp(s0, s, 0, may);
    assert s.pcs[1] == Asleep(Deq, false) && 1 in Sleeping(s, false);
    steps := RunFound(s0, s, may);
  }

  // Thread t calls enqueue with nobody asleep.
  lemma EnqueuesAlone(s0: State, s: State, t: nat, e: int, may: Callers) returns (r: State)
    requires Leading(s0, s, may) && s.holder.None? && t < |s.pcs| && HasRoom(s)
    requires forall u :: 0 <= u < |s.pcs| ==> s.pcs[u].Idle?
    ensures Leading(s0, r, may)
    ensures r == s.(elements := s.elements + [e], empty := false, full := |s.elements| + 1 == s.cap, pushed := s.pushed + [e])
  {
    r := EnqueueBegins(s0, s, t, e, may);
    LeadingStep(s0, r, Notify(t, None), may); r := Apply(r, Notify(t, None));
    r := EnqueueEnds(s0, r, t, may);
    assert r.pcs == s.pcs;
  }

  // n elements are put in, one after the other.
  lemma {:induction false} Fills(s0: State, n: nat, may: Callers) returns (r: State)
    requires s0 == Init(s0.cap, |s0.pcs|) && |s0.pcs| > 0 && n <= s0.cap
    ensures Leading(s0, r, may) && |r.elements| == n
    ensures r == s0.(elements := r.elements, pushed := r.pushed, empty := n == 0, full := n > 0 && n == s0.cap)
  {
    if n == 0 {
      LeadingStart(s0, may);
      r := s0;
    } else {
      r := Fills(s0, n - 1, may);
      r := EnqueuesAlone(s0, r, 0, 7, may);
    }
  }

  // Thread t calls dequeue, with no consumer asleep, and notifies the sleeping producer u.
  lemma TakesAndNotifies(s0: State, s: State, t: nat, u: nat, may: Callers) returns (r: State)
    requires Leading(s0, s, may) && s.holder.None? && t < |s.pcs| && s.pcs[t].Idle? && !s.empty && s.elements != []
    requires u < |s.pcs| && s.pcs[u].SleepsOnFull() && forall v :: 0 <= v < |s.pcs| ==> !s.pcs[v].SleepsOnEmpty()
    ensures Leading(s0, r, may)
    ensures r == s.(elements := s.elements[1..], popped := s.popped + [s.elements[0]], empty := |s.elements| == 1, full := false,
                    pcs := s.pcs[u := Woken(s.pcs[u].call, s.pcs[u].timed, false)])
  {
    r := DequeueBegins(s0, s, t, may);
    LeadingStep(s0, r, Notify(t, Some(u)), may); r := Apply(r, Notify(t, Some(u)));
    r := DequeueEnds(s0, r, t, may);
    assert r.pcs == s.pcs[u := Woken(s.pcs[u].call, s.pcs[u].timed, false)];
  }

  lemma DequeueEnds(s0: State, s: State, t: nat, may: Callers) returns (r: State)
    requires Leading(s0, s, may) && t < |s.pcs| && s.pcs[t].Notified? && s.pcs[t].call.Deq? && !s.empty
    requires forall v :: 0 <= v < |s.pcs| ==> !s.pcs[v].SleepsOnEmpty()
    ensures Leading(s0, r, may)
    ensures r == s.(holder := None, empty := s.elements == [], pcs := s.pcs[t := Idle])
  {
    LeadingStep(s0, s, Release(t), may); r := Apply(s, Release(t));
    assert r.pcs == s.pcs[t := Answering(s.pcs[t].result)];
    LeadingStep(s0, r, Return(t), may); r := Apply(r, Return(t));
    assert r.pcs == s.pcs[t := Idle];
  }

  lemma DequeueBegins(s0: State, s: State, t: nat, may: Callers) returns (r: State)
    requires Leading(s0, s, may) && s.holder.None? && t < |s.pcs| && s.pcs[t].Idle? && !s.empty && s.elements != []
    ensures Leading(s0, r, may)
    ensures r == s.(elements := s.elements[1..], popped := s.popped + [s.elements[0]], holder := Some(t),
                    pcs := s.pcs[t := Changed(Deq, Dequeued(s.elements[0]))])
  {
    LeadingStep(s0, s, Invoke(t, Deq, false), may); r := Apply(s, Invoke(t, Deq, false));
    LeadingStep(s0, r, Lock(t), may); r := Apply(r, Lock(t));
    r := TakeFinds(s0, r, t, may);
    assert r.pcs == s.pcs[t := Changed(Deq, Dequeued(s.elements[0]))];
  }

  // Two producers sleep over a full queue, one of them with a timeout.
  lemma TwoProducersSleep(cap: nat, threads: nat, may: Callers) returns (s: State)
    requires cap >= 1 && threads >= 3 && may.timedEnqueue
    ensures Leading(Init(cap, threads), s, may) && s.cap == cap == |s.elements| && s.holder.None? && !s.empty
    ensures s.pcs == Init(cap, threads).pcs[0 := Asleep(Enq(8), true)][1 := Asleep(Enq(9), false)]
  {
    var s0 := Init(cap, threads);
    s := Fills(s0, cap, may);
    s := FallsAsleep(s0, s, 0, Enq(8), true, may);
    s := FallsAsleep(s0, s, 1, Enq(9), false, may);
  }

  // A timed enqueue is enough: of two producers asleep over a full queue the timed one is notified of the
  // place that has become free, and gives up.
  lemma ProducerLeftByTimeout(cap: nat, threads: nat) returns (steps: seq<Step>)
    requires cap >= 1 && threads >= 3
    ensures LeavesBehind(cap, threads, steps, true, Callers(true, false, false, false))
  {
    var s0, may := Init(cap, threads), Callers(true, false, false, false);
    var s := TwoProducersSleep(cap, threads, may);
    s := TakesAndNotifies(s0, s, 2, 0, may);
    s := GivesUp(s0, s, 0, may);
    assert s.pcs[1] == Asleep(Enq(9), false) && 1 in Sleeping(s, true);
    steps := RunFound(s0, s, may);
  }

  // Two consumers sleep; one has been notified of an element when wait_empty falls asleep.
  lemma WaitEmptyJoins(cap: nat, threads: nat, may: Callers) returns (s: State)
    requires cap != 1 && threads >= 4 && may.overlap
    ensures Leading(Init(cap, threads), s, may)
    ensures s == Init(cap, threads).(elements := [7], pushed := [7], empty := false,
      pcs := Init(cap, threads).pcs[0 := Asleep(Deq, false)][1 := Woken(Deq, false, false)][3 := Asleep(WaitEmpty, false)])
  {
    var s0 := Init(cap, threads);
    LeadingStart(s0, may);
    s := FallsAsleep(s0, s0, 0, Deq, false, may);
    s := FallsAsleep(s0, s, 1, Deq, false, may);
    s := Enqueues(s0, s, 2, 7, 1, may);
    assert [] + [7] == [7];
    s := FallsAsleep(s0, s, 3, WaitEmpty, false, may);
    assert s.pcs == s0.pcs[0 := Asleep(Deq, false)][1 := Woken(Deq, false, false)][3 := Asleep(WaitEmpty, false)];
  }

  // An enqueue overlapping wait_empty is enough, without any timeout: a second element arrives, the
  // waiting call takes the notification meant for a consumer, and goes back to sleep.
  lemma ConsumerLeftByWaitEmpty(cap: nat, threads: nat) returns (steps: seq<Step>)
    requires cap != 1 && threads >= 4
    ensures LeavesBehind(cap, threads, steps, false, Callers(false, false, false, true))
  {
    var s0, may := Init(cap, threads), Callers(false, false, false, true);
    var s := WaitEmptyJoins(cap, threads, may);
    s := Enqueues(s0, s, 2, 8, 3, may);
    s := SleepsAgain(s0, s, 3, may);
    s := TakesOne(s0, s, 1, may);
    assert s.pcs[0] == Asleep(Deq, false) && 0 in Sleeping(s, false);
    steps := RunFound(s0, s, may);
  }

  // Exactly when no producer is ever left behind in a queue of this capacity with so many threads: when no
  // enqueue has a finite timeout, or there are less than three threads, or no bound.
  lemma ProducerStrandedIff(cap: nat, threads: nat, may: Callers)
    ensures
      (forall steps :: MadeBy(Init(cap, threads), steps, may) ==> !Stranded(Run(Init(cap, threads), steps), true))
      <==> !(may.timedEnqueue && cap >= 1 && threads >= 3)
  {
    if may.timedEnqueue && cap >= 1 && threads >= 3 {
      var steps := ProducerLeftByTimeout(cap, threads);
      assert MadeBy(Init(cap, threads), steps, may);
    } else {
      forall steps | MadeBy(Init(cap, threads), steps, may) ensures !Stranded(Run(Init(cap, threads), steps), true) {
        if threads <= 2 {
          FewNeverStranded(cap, threads, steps, true);
        } else if !may.timedEnqueue {
          RestMeansNothingToDo(cap, threads, steps, true);
        } else {
          InvAlongRun(Init(cap, threads), steps);
        }
      }
    }
  }

  // Exactly when no consumer is ever left behind: when no dequeue has a finite timeout, or there are less
  // than three threads; and no enqueue overlaps wait_empty, or there are less than four threads, or there
  // is only one place.
  lemma ConsumerStrandedIff(cap: nat, threads: nat, may: Callers)
    ensures
      (forall steps :: MadeBy(Init(cap, threads), steps, may) ==> !Stranded(Run(Init(cap, threads), steps), false))
      <==> !(may.timedDequeue && threads >= 3) && !(may.overlap && cap != 1 && threads >= 4)
  {
    if may.timedDequeue && threads >= 3 {
      var steps := ConsumerLeftByTimeout(cap, threads);
      assert MadeBy(Init(cap, threads), steps, may);
    } else if may.overlap && cap != 1 && threads >= 4 {
      var steps := ConsumerLeftByWaitEmpty(cap, threads);
      assert MadeBy(Init(cap, threads), steps, may);
    } else {
      forall steps | MadeBy(Init(cap, threads), steps, may) ensures !Stranded(Run(Init(cap, threads), steps), false) {
        if threads <= 2 {
          FewNeverStranded(cap, threads, steps, false);
        } else {
          RestMeansNothingToDo(cap, threads, steps, false);
        }
      }
    }
  }
}
