// No wake-up of a producer is lost as long as no enqueue has a finite timeout, whatever the others do;
// no wake-up of a consumer is lost as long as no dequeue has one and no enqueue overlaps wait_empty. Where
// there are too few threads or places for it to matter, these conditions are not needed.
module MonitorWakeups {

  import opened Wrappers
  import opened Monitor

  predicate InCall(pc: Pc) {
    pc.Locking? || pc.Testing? || pc.Asleep? || pc.Woken? || pc.Late? || pc.Acting? || pc.Changed? || pc.Notified?
  }

  predicate Timed(pc: Pc) {
    pc.Late? || ((pc.Locking? || pc.Testing? || pc.Asleep? || pc.Woken? || pc.Acting?) && pc.timed)
  }

  // The two sides that put each other to work; wait_empty belongs to neither.
  predicate OfSide(call: Call, producers: bool) {
    if producers then call.Enq? else call.Deq?
  }

  predicate OnTime(pc: Pc, producers: bool) {
    InCall(pc) && OfSide(pc.call, producers) ==> !Timed(pc) && !(pc.Woken? && pc.expired)
  }

  // Every wait of this side uses Duration::MAX.
  predicate NobodyTimed(s: State, producers: bool) {
    forall t :: 0 <= t < |s.pcs| ==> OnTime(s.pcs[t], producers)
  }

  // No enqueue is under way together with a wait_empty.
  predicate Apart(s: State) {
    forall t, u :: 0 <= t < |s.pcs| && 0 <= u < |s.pcs| && InCall(s.pcs[t]) && InCall(s.pcs[u]) ==>
      !(s.pcs[t].call.Enq? && s.pcs[u].call.WaitEmpty?)
  }

  // wait_empty cannot take a notification from a consumer: there is no enqueue to notify it, or it never
  // sleeps when the only place is filled, or there is no thread left that would be missing it.
  predicate Sheltered(s: State) {
    Apart(s) || s.cap == 1 || |s.pcs| <= 3
  }

  // What one side needs: `full` is shared with nobody, `empty` with wait_empty.
  predicate Disciplined(s: State, producers: bool) {
    NobodyTimed(s, producers) && (producers || Sheltered(s))
  }

  // A wait_empty caller sleeps only while the queue is not empty, not even before the element that has
  // just been put in.
  ghost predicate WaitersOk(s: State) {
    (exists t :: 0 <= t < |s.pcs| && s.pcs[t].Asleep? && s.pcs[t].call.WaitEmpty?) ==>
      var pc := Inside(s);
      if pc.Changed? && pc.call.Enq? then |s.elements| >= 2
      else s.elements != [] || (pc.HoldsElements() && pc.call.Deq?)
  }

  ghost function Sleeping(s: State, producers: bool): set<nat> {
    set t: nat | t < |s.pcs| && s.pcs[t].Asleep? && OfSide(s.pcs[t].call, producers)
  }

  // Woken and not yet running.
  ghost function Called(s: State, producers: bool): set<nat> {
    set t: nat | t < |s.pcs| && s.pcs[t].Woken? && OfSide(s.pcs[t].call, producers)
  }

  // The thread inside has been called to, or has still to call, one of this side.
  predicate Owes(s: State, producers: bool) {
    var pc := Inside(s);
    if producers then
      ((pc.Testing? || pc.Acting?) && pc.call.Enq?) || (pc.Changed? && pc.call.Deq?)
    else
      ((pc.Testing? || pc.Acting?) && pc.call.Deq?) || (pc.Changed? && pc.call.Enq?)
  }

  // What there is to do for one side: elements to take, or places to fill.
  function Supply(s: State, producers: bool): int {
    (if producers then s.cap - |s.elements| else |s.elements|) - if Owes(s, producers) then 1 else 0
  }

  ghost predicate NoLostWakeup(s: State, producers: bool) {
    Sleeping(s, producers) != {} ==> |Called(s, producers)| >= Supply(s, producers)
  }

  lemma SetsUnchanged(s: State, t: State, producers: bool)
    requires |s.pcs| == |t.pcs|
    requires forall u :: 0 <= u < |s.pcs| && t.pcs[u] != s.pcs[u] ==>
      !s.pcs[u].Asleep? && !s.pcs[u].Woken? && !t.pcs[u].Asleep? && !t.pcs[u].Woken?
    ensures Sleeping(s, producers) == Sleeping(t, producers) && Called(s, producers) == Called(t, producers)
  {
  }

  // Steps that no sleeper and no woken thread takes or causes.
  predicate Plain(st: Step) {
    st.Invoke? || st.Lock? || st.Return? || st.Change? || st.GiveUp?
  }

  lemma PlainKept(s: State, st: Step, producers: bool)
    requires Inv(s) && NoLostWakeup(s, producers) && Enabled(s, st) && Plain(st)
    ensures NoLostWakeup(Apply(s, st), producers)
  {
    SetsUnchanged(s, Apply(s, st), producers);
  }

  lemma TestKept(s: State, u: nat, producers: bool)
    requires Inv(s) && NoLostWakeup(s, producers) && Enabled(s, Test(u))
    ensures NoLostWakeup(Apply(s, Test(u)), producers)
  {
    var t := Apply(s, Test(u));
    assert Called(t, producers) == Called(s, producers);
    if !t.pcs[u].Asleep? {
      SetsUnchanged(s, t, producers);
    } else if OfSide(t.pcs[u].call, producers) {
      assert Supply(t, producers) <= 0;
    } else {
      assert Sleeping(t, producers) == Sleeping(s, producers);
    }
  }

  lemma RelockKept(s: State, st: Step, producers: bool)
    requires NoLostWakeup(s, producers) && Enabled(s, st) && (st.Relock? || st.RelockLate?)
    requires OfSide(s.pcs[st.t].call, producers) ==> st.Relock? && !s.pcs[st.t].expired
    ensures NoLostWakeup(Apply(s, st), producers)
  {
    var t := Apply(s, st);
    RelockShape(s, st);
    hide Apply, Enabled;
    assert Called(t, producers) == Called(s, producers) - {st.t};
    assert Sleeping(t, producers) == Sleeping(s, producers);
  }

  lemma RelockShape(s: State, st: Step)
    requires Enabled(s, st) && (st.Relock? || st.RelockLate?)
    ensures var t := Apply(s, st);
      && t.cap == s.cap && t.elements == s.elements && s.holder == None && t.holder == Some(st.t)
      && st.t < |s.pcs| == |t.pcs| && s.pcs[st.t].Woken? && t.pcs == s.pcs[st.t := t.pcs[st.t]]
      && t.pcs[st.t] == if st.RelockLate? || s.pcs[st.t].expired then Late(s.pcs[st.t].call)
                        else Testing(s.pcs[st.t].call, s.pcs[st.t].timed)
  {
  }

  // Where wait_empty can be notified, no consumer sleeps.
  lemma NobodyMisses(s: State, st: Step)
    requires Inv(s) && NoLostWakeup(s, false) && Enabled(s, st) && st.Notify? && Sheltered(s) && WaitersOk(s)
    requires st.target.Some? && s.pcs[st.target.value].call.WaitEmpty?
    ensures Sleeping(s, false) == {}
  {
    assert |s.elements| >= 2;
    if v :| v in Sleeping(s, false) {
      assert false;
    }
  }

  lemma NotifyKept(s: State, st: Step, producers: bool)
    requires Inv(s) && NoLostWakeup(s, producers) && Enabled(s, st) && st.Notify?
    requires producers || (Sheltered(s) && WaitersOk(s))
    ensures NoLostWakeup(Apply(s, st), producers)
  {
    var t := Apply(s, st);
    if st.target.Some? {
      Woke(s, t, st.target.value, producers);
      if !producers && s.pcs[st.target.value].call.WaitEmpty? {
        NobodyMisses(s, st);
      }
    } else {
      SetsUnchanged(s, t, producers);
      if Sleeping(s, producers) != {} {
        var v :| v in Sleeping(s, producers);
        assert !Wakes(s, s.pcs[st.t].call, v);
      }
    }
  }

  // Each disciplined step keeps it.
  lemma WakeupKept(s: State, st: Step, producers: bool)
    requires Inv(s) && WaitersOk(s) && Disciplined(s, producers) && NoLostWakeup(s, producers) && Enabled(s, st)
    ensures NoLostWakeup(Apply(s, st), producers)
  {
    if Plain(st) {
      PlainKept(s, st, producers);
    } else if st.Test? {
      TestKept(s, st.t, producers);
    } else if st.Spurious? || st.Expire? {
      Woke(s, Apply(s, st), st.t, producers);
    } else if st.Relock? || st.RelockLate? {
      assert OnTime(s.pcs[st.t], producers);
      RelockKept(s, st, producers);
    } else if st.Notify? {
      NotifyKept(s, st, producers);
    } else if st.Release? {
      ReleaseKept(s, st.t, producers);
    }
  }

  // The only sleeper or woken thread that changes is u.
  predicate OneWakes(s: State, t: State, u: nat) {
    && u < |s.pcs| == |t.pcs| && s.pcs[u].Asleep? && t.pcs[u].Woken? && t.pcs[u].call == s.pcs[u].call
    && forall v :: 0 <= v < |s.pcs| && v != u && t.pcs[v] != s.pcs[v] ==>
         !s.pcs[v].Asleep? && !s.pcs[v].Woken? && !t.pcs[v].Asleep? && !t.pcs[v].Woken?
  }

  lemma Woke(s: State, t: State, u: nat, producers: bool)
    requires OneWakes(s, t, u)
    ensures Sleeping(t, producers) == Sleeping(s, producers) - {u}
    ensures |Called(t, producers)| == |Called(s, producers)| + if OfSide(s.pcs[u].call, producers) then 1 else 0
  {
    WokeCalled(s, t, u, producers);
  }

  lemma WokeCalled(s: State, t: State, u: nat, producers: bool)
    requires OneWakes(s, t, u)
    ensures |Called(t, producers)| == |Called(s, producers)| + if OfSide(s.pcs[u].call, producers) then 1 else 0
  {
    var more := if OfSide(s.pcs[u].call, producers) then {u} else {};
    forall v: nat ensures v in Called(t, producers) <==> v in Called(s, producers) + more {
      if v < |s.pcs| && v != u && t.pcs[v] == s.pcs[v] {
        assert v in Called(t, producers) <==> v in Called(s, producers);
      }
    }
    assert u !in Called(s, producers);
    assert Called(t, producers) == Called(s, producers) + more;
  }

  lemma ReleaseKept(s: State, u: nat, producers: bool)
    requires Inv(s) && NoLostWakeup(s, producers) && Enabled(s, Release(u))
    ensures NoLostWakeup(Apply(s, Release(u)), producers)
  {
    var t := Apply(s, Release(u));
    var all := if s.pcs[u].call.Enq? then |s.elements| == s.cap else s.elements == [];
    if all && producers == s.pcs[u].call.Enq? {
      assert Sleeping(t, producers) == {};
    } else {
      assert Sleeping(t, producers) <= Sleeping(s, producers);
      assert Called(t, producers) == Called(s, producers);
    }
  }

  // No call of this side is made with a finite timeout in the run.
  predicate Untimed(steps: seq<Step>, producers: bool) {
    forall st :: st in steps && st.Invoke? && OfSide(st.call, producers) ==> !st.timed
  }

  // Enqueue and wait_empty never overlap in the run.
  predicate KeptApart(s: State, steps: seq<Step>)
    requires CanRun(s, steps)
    decreases |steps|
  {
    Apart(s) && (steps == [] || KeptApart(Apply(s, steps[0]), steps[1..]))
  }

  // A step leaves another thread as it is, or wakes it.
  lemma OtherThreads(s: State, st: Step, u: nat)
    requires Enabled(s, st) && u < |s.pcs|
    ensures |Apply(s, st).pcs| == |s.pcs|
    ensures u != st.t ==> Apply(s, st).pcs[u] == s.pcs[u] || Apply(s, st).pcs[u] == Wake(s.pcs[u])
  {
  }

  lemma OnTimeKept(s: State, st: Step, u: nat, producers: bool)
    requires NobodyTimed(s, producers) && Enabled(s, st) && u < |s.pcs|
    requires st.Invoke? && OfSide(st.call, producers) ==> !st.timed
    ensures |Apply(s, st).pcs| == |s.pcs| && OnTime(Apply(s, st).pcs[u], producers)
  {
    assert OnTime(s.pcs[u], producers);
    OtherThreads(s, st, u);
    if u != st.t {
      hide Apply, Enabled;
    }
  }

  lemma NobodyTimedKept(s: State, st: Step, producers: bool)
    requires NobodyTimed(s, producers) && Enabled(s, st)
    requires st.Invoke? && OfSide(st.call, producers) ==> !st.timed
    ensures NobodyTimed(Apply(s, st), producers)
  {
    forall u: nat | u < |s.pcs| ensures OnTime(Apply(s, st).pcs[u], producers) {
      OnTimeKept(s, st, u, producers);
    }
    hide Apply, Enabled;
  }

  // What the callers of a run have to keep to for this side.
  predicate Careful(s: State, steps: seq<Step>, producers: bool) {
    && CanRun(s, steps) && Untimed(steps, producers)
    && (producers || KeptApart(s, steps) || s.cap == 1 || |s.pcs| <= 3)
  }

  lemma {:induction false} WakeupsAlongRun(s: State, steps: seq<Step>, producers: bool)
    requires Inv(s) && WaitersOk(s) && NobodyTimed(s, producers) && NoLostWakeup(s, producers)
    requires Careful(s, steps, producers)
    ensures NoLostWakeup(Run(s, steps), producers)
    decreases |steps|
  {
    hide Apply, Enabled, Inv, NobodyTimed, Apart, NoLostWakeup, WaitersOk;
    if steps != [] {
      assert steps[0] in steps;
      assert forall st :: st in steps[1..] ==> st in steps;
      InvKept(s, steps[0]);
      NobodyTimedKept(s, steps[0], producers);
      WaitersKept(s, steps[0]);
      WakeupKept(s, steps[0], producers);
      WakeupsAlongRun(Apply(s, steps[0]), steps[1..], producers);
    }
  }

  // What there is to do for one side in a quiet moment.
  function Todo(s: State, producers: bool): int {
    if producers then s.cap - |s.elements| else |s.elements|
  }

  // After any run that is careful for one side, with the flags mutex free: if one of this side sleeps
  // without having been notified, the notified ones are at least as many as there is to do for them.
  lemma NobodyForgotten(cap: nat, threads: nat, steps: seq<Step>, producers: bool)
    requires Careful(Init(cap, threads), steps, producers)
    ensures var s := Run(Init(cap, threads), steps);
      s.holder.None? && Sleeping(s, producers) != {} ==> |Called(s, producers)| >= Todo(s, producers)
  {
    var s0 := Init(cap, threads);
    assert Sleeping(s0, producers) == {};
    WakeupsAlongRun(s0, steps, producers);
    InvAlongRun(s0, steps);
  }

  // Producers need no more than that no enqueue has a finite timeout.
  lemma ProducersNotForgotten(cap: nat, threads: nat, steps: seq<Step>)
    requires CanRun(Init(cap, threads), steps)
    requires forall st :: st in steps && st.Invoke? && st.call.Enq? ==> !st.timed
    ensures var s := Run(Init(cap, threads), steps);
      s.holder.None? && Sleeping(s, true) != {} ==> |Called(s, true)| >= cap - |s.elements|
  {
    NobodyForgotten(cap, threads, steps, true);
    InvAlongRun(Init(cap, threads), steps);
  }

  // Consumers need that no dequeue has a finite timeout and no enqueue overlaps wait_empty.
  lemma ConsumersNotForgotten(cap: nat, threads: nat, steps: seq<Step>)
    requires CanRun(Init(cap, threads), steps) && KeptApart(Init(cap, threads), steps)
    requires forall st :: st in steps && st.Invoke? && st.call.Deq? ==> !st.timed
    ensures var s := Run(Init(cap, threads), steps);
      s.holder.None? && Sleeping(s, false) != {} ==> |Called(s, false)| >= |s.elements|
  {
    NobodyForgotten(cap, threads, steps, false);
  }

  // Everyone in a call is asleep and nobody has been notified.
  predicate AtRest(s: State) {
    forall t :: 0 <= t < |s.pcs| ==> s.pcs[t].Idle? || s.pcs[t].Asleep?
  }

  // If somebody in a call is not asleep, a step other than a new call, a spurious wake-up or a
  // timer can be taken: the queue itself never blocks anyone but sleepers.
  lemma NotAtRestMoves(s: State)
    requires Inv(s) && !AtRest(s)
    ensures exists st :: Enabled(s, st) && !st.Invoke? && !st.Spurious? && !st.Expire?
  {
    if s.holder.Some? {
      var t := s.holder.value;
      match s.pcs[t]
      case Testing(_, _) => assert Enabled(s, Test(t));
      case Late(_) => assert Enabled(s, GiveUp(t));
      case Acting(_, _) => assert Enabled(s, Change(t));
      case Changed(call, _) =>
        if u: nat :| Wakes(s, call, u) {
          assert Enabled(s, Notify(t, Some(u)));
        } else {
          assert Enabled(s, Notify(t, None));
        }
      case Notified(_, _) => assert Enabled(s, Release(t));
    } else {
      var t :| 0 <= t < |s.pcs| && !s.pcs[t].Idle? && !s.pcs[t].Asleep?;
      match s.pcs[t]
      case Locking(_, _) => assert Enabled(s, Lock(t));
      case Woken(_, _, _) => assert Enabled(s, Relock(t));
      case Answering(_) => assert Enabled(s, Return(t));
    }
  }

  lemma RestIsFree(s: State)
    requires MutexOk(s) && AtRest(s)
    ensures s.holder.None?
  {
  }

  // One of this side sleeps though there is something to do, and nobody is running or notified.
  ghost predicate Stranded(s: State, producers: bool) {
    AtRest(s) && Sleeping(s, producers) != {} && Todo(s, producers) > 0
  }

  // Where a run can come to rest that is careful for one side: with nothing to do for its sleepers.
  lemma RestMeansNothingToDo(cap: nat, threads: nat, steps: seq<Step>, producers: bool)
    requires Careful(Init(cap, threads), steps, producers)
    ensures !Stranded(Run(Init(cap, threads), steps), producers)
  {
    var s := Run(Init(cap, threads), steps);
    NobodyForgotten(cap, threads, steps, producers);
    InvAlongRun(Init(cap, threads), steps);
    if AtRest(s) {
      assert Called(s, producers) == {};
      RestIsFree(s);
    }
  }

  // With two threads at most a sleeper is the only one the other thread can notify.
  ghost predicate FewOk(s: State, producers: bool) {
    |s.pcs| <= 2 &&
    (Sleeping(s, producers) != {} ==> Todo(s, producers) <= 0 || (Inside(s).Changed? && OfSide(Inside(s).call, !producers)))
  }

  lemma FewKept(s: State, st: Step, producers: bool)
    requires Inv(s) && FewOk(s, producers) && Enabled(s, st)
    ensures FewOk(Apply(s, st), producers)
  {
    var t := Apply(s, st);
    InvKept(s, st);
    if v :| v in Sleeping(t, producers) {
      FewSleeper(s, st, producers, v);
    }
  }

  lemma FewSleeper(s: State, st: Step, producers: bool, v: nat)
    requires Inv(s) && FewOk(s, producers) && Enabled(s, st) && v in Sleeping(Apply(s, st), producers)
    ensures var t := Apply(s, st);
      Todo(t, producers) <= 0 || (Inside(t).Changed? && OfSide(Inside(t).call, !producers))
  {
    if st != Test(v) {
      assert v in Sleeping(s, producers);
      if st.Notify? && OfSide(s.pcs[st.t].call, !producers) {
        assert Wakes(s, s.pcs[st.t].call, v);
      }
    }
  }

  lemma {:induction false} FewAlongRun(s: State, steps: seq<Step>, producers: bool)
    requires Inv(s) && FewOk(s, producers) && CanRun(s, steps)
    ensures FewOk(Run(s, steps), producers)
    decreases |steps|
  {
    hide Apply, Enabled, Inv, FewOk;
    if steps != [] {
      InvKept(s, steps[0]);
      FewKept(s, steps[0], producers);
      FewAlongRun(Apply(s, steps[0]), steps[1..], producers);
    }
  }

  lemma FewNeverStranded(cap: nat, threads: nat, steps: seq<Step>, producers: bool)
    requires threads <= 2 && CanRun(Init(cap, threads), steps)
    ensures !Stranded(Run(Init(cap, threads), steps), producers)
  {
    var s0 := Init(cap, threads);
    assert Sleeping(s0, producers) == {};
    FewAlongRun(s0, steps, producers);
    InvAlongRun(s0, steps);
    if AtRest(Run(s0, steps)) {
      RestIsFree(Run(s0, steps));
    }
  }

  // No deadlock: a run that is careful for both sides never rests with producers and consumers asleep.
  lemma NeverBothAsleep(cap: nat, threads: nat, steps: seq<Step>)
    requires cap > 0 && Careful(Init(cap, threads), steps, true) && Careful(Init(cap, threads), steps, false)
    ensures var s := Run(Init(cap, threads), steps);
      AtRest(s) ==> Sleeping(s, false) == {} || Sleeping(s, true) == {}
  {
    RestMeansNothingToDo(cap, threads, steps, true);
    RestMeansNothingToDo(cap, threads, steps, false);
    InvAlongRun(Init(cap, threads), steps);
  }

  lemma WaitersKept(s: State, st: Step)
    requires Inv(s) && WaitersOk(s) && Enabled(s, st)
    ensures WaitersOk(Apply(s, st))
  {
    if st.Change? || st.Notify? || st.Release? {
      WaitersKeptInside(s, st);
    } else {
      WaitersKeptOutside(s, st);
    }
  }

  lemma WaitersKeptInside(s: State, st: Step)
    requires Inv(s) && WaitersOk(s) && Enabled(s, st) && (st.Change? || st.Notify? || st.Release?)
    ensures WaitersOk(Apply(s, st))
  {
  }

  lemma WaitersKeptOutside(s: State, st: Step)
    requires Inv(s) && WaitersOk(s) && Enabled(s, st) && !st.Change? && !st.Notify? && !st.Release?
    ensures WaitersOk(Apply(s, st))
  {
  }

  lemma {:induction false} WaitersAlongRun(s: State, steps: seq<Step>)
    requires Inv(s) && WaitersOk(s) && CanRun(s, steps)
    ensures WaitersOk(Run(s, steps))
    decreases |steps|
  {
    if steps != [] {
      InvKept(s, steps[0]);
      WaitersKept(s, steps[0]);
      WaitersAlongRun(Apply(s, steps[0]), steps[1..]);
    }
  }

  lemma WaitEmptyNotForgotten(s: State, t: nat)
    requires Reachable(s) && s.holder.None? && s.elements == [] && t < |s.pcs|
    ensures !(s.pcs[t].Asleep? && s.pcs[t].call.WaitEmpty?)
  {
    var s0 := Init(s.cap, |s.pcs|);
    var steps :| CanRun(s0, steps) && Run(s0, steps) == s;
    WaitersAlongRun(s0, steps);
  }
}
