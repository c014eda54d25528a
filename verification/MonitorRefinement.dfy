// BlockingQueue refines an atomic bounded FIFO: every call takes effect in one step between its
// invocation and its return.
module MonitorRefinement {

  import opened Wrappers
  import opened Monitor

  datatype ClientState = Out | Pending(call: Call, timed: bool) | Answered(result: Result)

  datatype Abstract = Abstract(cap: nat, elements: seq<int>, clients: seq<ClientState>)

  // The atomic queue, one client at a time.
  ghost predicate AtomicStep(a: Abstract, b: Abstract, t: nat) {
    && t < |a.clients| == |b.clients| && a.cap == b.cap
    && (forall u :: 0 <= u < |a.clients| && u != t ==> b.clients[u] == a.clients[u])
    && match (a.clients[t], b.clients[t])
       case (Out, Pending(_, _)) => b.elements == a.elements
       case (Pending(call, timed), Answered(result)) =>
         Served(a, b, call, result) || (timed && b.elements == a.elements && result == GivenUp(a, call))
       case (Answered(_), Out) => b.elements == a.elements
       case _ => false
  }

  predicate Served(a: Abstract, b: Abstract, call: Call, result: Result) {
    match call
    case Enq(e) => |a.elements| < a.cap && b.elements == a.elements + [e] && result == Enqueued
    case Deq => a.elements != [] && b.elements == a.elements[1..] && result == Dequeued(a.elements[0])
    case WaitEmpty => a.elements == [] && b.elements == a.elements && result == EmptyIs(true)
  }

  // A call out of time changes nothing; a refused element goes back to its owner.
  function GivenUp(a: Abstract, call: Call): Result {
    match call
    case Enq(e) => Refused(e)
    case Deq => Nothing
    case WaitEmpty => EmptyIs(a.elements == [])
  }

  ghost predicate AtomicOrStutter(a: Abstract, b: Abstract) {
    a == b || exists t :: AtomicStep(a, b, t)
  }

  function View(pc: Pc): ClientState {
    match pc
    case Idle => Out
    case Locking(call, timed) => Pending(call, timed)
    case Testing(call, timed) => Pending(call, timed)
    case Asleep(call, timed) => Pending(call, timed)
    case Woken(call, timed, _) => Pending(call, timed)
    case Late(call) => Pending(call, true)
    case Acting(call, timed) => Pending(call, timed)
    case Changed(_, result) => Answered(result)
    case Notified(_, result) => Answered(result)
    case Answering(result) => Answered(result)
  }

  function Abs(s: State): Abstract {
    Abstract(s.cap, s.elements, seq(|s.pcs|, t requires 0 <= t < |s.pcs| => View(s.pcs[t])))
  }

  // Only a finite timeout expires.
  ghost predicate TimersOk(s: State) {
    forall t :: 0 <= t < |s.pcs| && s.pcs[t].Woken? && s.pcs[t].expired ==> s.pcs[t].timed
  }

  lemma TimersKept(s: State, st: Step)
    requires TimersOk(s) && Enabled(s, st)
    ensures TimersOk(Apply(s, st))
  {
  }

  // The steps that clients of the queue can see.
  predicate Visible(s: State, st: Step)
    requires Enabled(s, st)
  {
    st.Invoke? || st.Change? || st.GiveUp? || st.Return?
    || (st.Test? && s.pcs[st.t].call.WaitEmpty? && !Blocked(s, s.pcs[st.t].call))
  }

  lemma InvisibleStutters(s: State, st: Step)
    requires Inv(s) && TimersOk(s) && Enabled(s, st) && !Visible(s, st)
    ensures Abs(Apply(s, st)) == Abs(s)
  {
    var t := Apply(s, st);
    forall u | 0 <= u < |s.pcs| ensures View(t.pcs[u]) == View(s.pcs[u]) {
    }
  }

  lemma VisibleIsAtomic(s: State, st: Step)
    requires Inv(s) && Enabled(s, st) && Visible(s, st) && s.cap > 0
    ensures AtomicStep(Abs(s), Abs(Apply(s, st)), st.t)
  {
    assert Inside(s).HoldsFlags() ==> s.holder.Some?;
  }

  // Every step of the queue is one step of the atomic queue or leaves it as it is.
  lemma StepRefines(s: State, st: Step)
    requires Inv(s) && TimersOk(s) && Enabled(s, st) && s.cap > 0
    ensures AtomicOrStutter(Abs(s), Abs(Apply(s, st)))
  {
    if Visible(s, st) {
      VisibleIsAtomic(s, st);
    } else {
      InvisibleStutters(s, st);
    }
  }

  // The states a run goes through.
  function Trace(s: State, steps: seq<Step>): (trace: seq<State>)
    requires CanRun(s, steps)
    ensures |trace| == |steps| + 1 && trace[0] == s && trace[|steps|] == Run(s, steps)
    decreases |steps|
  {
    if steps == [] then [s] else [s] + Trace(Apply(s, steps[0]), steps[1..])
  }

  // Every run of the queue is, seen from its clients, a run of the atomic bounded FIFO.
  lemma {:induction false} RunRefines(s: State, steps: seq<Step>)
    requires Inv(s) && TimersOk(s) && s.cap > 0 && CanRun(s, steps)
    ensures forall i :: 0 <= i < |steps| ==> AtomicOrStutter(Abs(Trace(s, steps)[i]), Abs(Trace(s, steps)[i + 1]))
    decreases |steps|
  {
    if steps != [] {
      var m := Apply(s, steps[0]);
      StepRefines(s, steps[0]);
      InvKept(s, steps[0]);
      TimersKept(s, steps[0]);
      RunRefines(m, steps[1..]);
      assert Trace(s, steps)[1..] == Trace(m, steps[1..]);
      forall i | 0 <= i < |steps| ensures AtomicOrStutter(Abs(Trace(s, steps)[i]), Abs(Trace(s, steps)[i + 1])) {
        if i > 0 {
          assert Trace(s, steps)[i] == Trace(m, steps[1..])[i - 1];
          assert Trace(s, steps)[i + 1] == Trace(m, steps[1..])[i];
        }
      }
    }
  }

  lemma {:induction false} BlockingQueueRefinesFifo(cap: nat, threads: nat, steps: seq<Step>)
    requires cap > 0 && CanRun(Init(cap, threads), steps)
    ensures forall i :: 0 <= i < |steps| ==>
      AtomicOrStutter(Abs(Trace(Init(cap, threads), steps)[i]), Abs(Trace(Init(cap, threads), steps)[i + 1]))
    ensures Abs(Init(cap, threads)).elements == []
  {
    RunRefines(Init(cap, threads), steps);
  }

  // A queue of capacity 0 never counts as full: the bound holds in every run if and only if the
  // capacity is positive.
  lemma BoundedIffPositive(cap: nat)
    ensures (forall s :: Reachable(s) && s.cap == cap ==> |s.elements| <= cap) <==> cap > 0
  {
    if cap > 0 {
      forall s | Reachable(s) && s.cap == cap ensures |s.elements| <= cap {
        ReachableInv(s);
      }
    } else {
      var s0 := Init(0, 1);
      LeadsStart(s0);
      var s1 := s0.(pcs := [Locking(Enq(7), false)]);
      LeadsStep(s0, s0, Invoke(0, Enq(7), false));
      assert s1 == Apply(s0, Invoke(0, Enq(7), false));
      LeadsStep(s0, s1, Lock(0));
      var s2 := s1.(holder := Some(0), pcs := [Testing(Enq(7), false)]);
      assert s2 == Apply(s1, Lock(0));
      LeadsStep(s0, s2, Test(0));
      var s3 := s2.(pcs := [Acting(Enq(7), false)]);
      assert s3 == Apply(s2, Test(0));
      LeadsStep(s0, s3, Change(0));
      assert Reachable(Apply(s3, Change(0))) && |Apply(s3, Change(0)).elements| == 1;
    }
  }
}
