// The operations of the pool's owner as programs of the protocol: the steps of an operation, one after
// the other, each as soon as it is possible, while the workers take turns as a schedule says. Every
// operation gets through for some schedule, as long as the protocol lets it.
module PoolPlay {

  import opened Counting
  import opened Pool
  import opened PoolInvariant
  import opened PoolSafety
  import opened PoolShutdown
  import opened PoolCalls

  // The next atomic action of worker w, or nothing if it cannot move.
  function Turn(s: State, w: nat): State {
    if w < |s.workers| && Enabled(s, NextOf(s.workers[w].phase, w)) then Apply(s, NextOf(s.workers[w].phase, w)) else s
  }

  // A worker never has a choice: its turn is whatever step of it is possible, and nothing if none is.
  lemma TurnIsTheStep(s: State, w: nat)
    ensures forall st: Step :: st.ByWorker() && st.w == w && Enabled(s, st) ==> Turn(s, w) == Apply(s, st)
    ensures (forall st: Step :: st.ByWorker() && st.w == w ==> !Enabled(s, st)) ==> Turn(s, w) == s
  {
    forall st: Step | st.ByWorker() && st.w == w && Enabled(s, st) ensures Turn(s, w) == Apply(s, st) {
      OneStepEach(s, st);
    }
    if forall st: Step :: st.ByWorker() && st.w == w ==> !Enabled(s, st) {
      assert w < |s.workers| ==> NextOf(s.workers[w].phase, w).ByWorker() && NextOf(s.workers[w].phase, w).w == w;
    }
  }

  lemma OneStepEach(s: State, st: Step)
    requires st.ByWorker() && Enabled(s, st)
    ensures st.w < |s.workers| && st == NextOf(s.workers[st.w].phase, st.w)
  {
  }

  // The workers take turns in the order of the schedule.
  function Turns(s: State, schedule: seq<nat>): State
    decreases |schedule|
  {
    if schedule == [] then s else Turns(Turn(s, schedule[0]), schedule[1..])
  }

  lemma {:induction false} TurnsMore(s: State, schedule: seq<nat>, w: nat)
    ensures Turns(s, schedule + [w]) == Turn(Turns(s, schedule), w)
    decreases |schedule|
  {
    hide Turn;
    if schedule == [] {
      assert [w][1..] == [];
      assert Turns(s, [w]) == Turns(Turn(s, w), []);
    } else {
      TurnsMore(Turn(s, schedule[0]), schedule[1..], w);
      assert (schedule + [w])[1..] == schedule[1..] + [w];
    }
  }

  // Workers change a call's barrier count and mutex, and nothing else of it; nor do they change what
  // the owner is at.
  ghost predicate SameCalls(before: seq<Call>, after: seq<Call>) {
    |after| == |before| && forall c :: 0 <= c < |before| ==>
      && after[c].mutexed == before[c].mutexed && after[c].body == before[c].body
      && after[c].tickets == before[c].tickets && after[c].caller == before[c].caller
  }

  lemma TurnKeepsCalls(s: State, w: nat)
    ensures SameCalls(s.calls, Turn(s, w).calls) && |Turn(s, w).workers| == |s.workers|
    ensures Turn(s, w).owner == s.owner && Turn(s, w).cap == s.cap && Turn(s, w).tasks == s.tasks
  {
    if w < |s.workers| && Enabled(s, NextOf(s.workers[w].phase, w)) {
      match s.workers[w].phase
      case CheckStop => assert Turn(s, w).calls == s.calls;
      case Dequeuing => assert Turn(s, w).calls == s.calls;
      case Executing(_) => assert Turn(s, w).calls == s.calls;
      case Entering(_) =>
      case InBody(_) =>
      case Arriving(_) =>
      case AtBarrier(_) => assert Turn(s, w).calls == s.calls;
      case Exited =>
    }
  }

  // How far an operation has come: the state, what is left of its program, and of the schedule.
  datatype Carry = Carry(s: State, program: seq<Step>, schedule: seq<nat>)

  function Carried(s: State, program: seq<Step>, schedule: seq<nat>): Carry
    decreases |program| + |schedule|
  {
    if program == [] then Carry(s, program, schedule)
    else if Enabled(s, program[0]) then Carried(Apply(s, program[0]), program[1..], schedule)
    else if schedule == [] then Carry(s, program, schedule)
    else Carried(Turn(s, schedule[0]), program, schedule[1..])
  }

  // An operation that has not got through is blocked at its next step, with the schedule used up.
  lemma {:induction false} BlockedAtStep(s: State, program: seq<Step>, schedule: seq<nat>)
    ensures var c := Carried(s, program, schedule);
      c.program != [] ==> c.schedule == [] && !Enabled(c.s, c.program[0])
    decreases |program| + |schedule|
  {
    if program != [] && Enabled(s, program[0]) {
      BlockedAtStep(Apply(s, program[0]), program[1..], schedule);
    } else if program != [] && schedule != [] {
      BlockedAtStep(Turn(s, schedule[0]), program, schedule[1..]);
    }
  }

  // The steps of a run that are not the workers' own.
  function OwnSteps(steps: seq<Step>): seq<Step> {
    if steps == [] then [] else (if steps[0].ByWorker() then [] else [steps[0]]) + OwnSteps(steps[1..])
  }

  // An operation is a run of the protocol in which its program is made step by step, in order, and
  // beside it only workers move.
  lemma {:induction false} CarriedIsRun(s: State, program: seq<Step>, schedule: seq<nat>) returns (steps: seq<Step>)
    requires forall st :: st in program ==> !st.ByWorker()
    ensures CanRun(s, steps) && Run(s, steps) == Carried(s, program, schedule).s
    ensures OwnSteps(steps) + Carried(s, program, schedule).program == program
    decreases |program| + |schedule|
  {
    hide Enabled, Apply;
    if program == [] || (!Enabled(s, program[0]) && schedule == []) {
      steps := [];
    } else if Enabled(s, program[0]) {
      var rest := CarriedIsRun(Apply(s, program[0]), program[1..], schedule);
      assert program[0] in program;
      steps := [program[0]] + rest;
      assert steps[1..] == rest;
    } else {
      var t := Turn(s, schedule[0]);
      var rest := CarriedIsRun(t, program, schedule[1..]);
      if t == s {
        steps := rest;
      } else {
        steps := [NextOf(s.workers[schedule[0]].phase, schedule[0])] + rest;
        assert steps[1..] == rest;
      }
    }
  }

  // The programs

  function Repeat(st: Step, n: nat): seq<Step> {
    if n == 0 then [] else [st] + Repeat(st, n - 1)
  }

  lemma RepeatStep(st: Step, n: nat, tail: seq<Step>)
    requires n > 0
    ensures (Repeat(st, n) + tail)[0] == st && (Repeat(st, n) + tail)[1..] == Repeat(st, n - 1) + tail
  {
    assert (Repeat(st, n) + tail)[1..] == Repeat(st, n)[1..] + tail;
  }

  function CallTail(c: nat): seq<Step> {
    [CallerArrive(c), CallerReturn(c)]
  }

  // in_all_threads and in_all_threads_mut, as call c
  function CallProgram(mutexed: bool, body: Body, tasks: nat, c: nat): seq<Step> {
    [StartCall(mutexed, body)] + (Repeat(SendTicket(c), tasks) + CallTail(c))
  }

  function StopProgram(tasks: nat): seq<Step> {
    [StoreStop] + Repeat(SendToken, tasks)
  }

  function ShutdownProgram(mode: Mode, tasks: nat): seq<Step> {
    [Close] + ((if mode.CompletePending? then [SeeEmpty] else []) + StopProgram(tasks))
  }

  function JoinProgram(tasks: nat): seq<Step> {
    [BeginJoin] + Repeat(JoinOne, tasks)
  }

  lemma CarriedOwn(s: State, program: seq<Step>, schedule: seq<nat>)
    requires program != [] && Enabled(s, program[0])
    ensures Carried(s, program, schedule) == Carried(Apply(s, program[0]), program[1..], schedule)
  {
  }

  // A step that only waits for room in the queue.
  predicate NeedsRoom(s: State, st: Step) {
    || (st.SendTicket? && s.owner.Open? && CallIn(s, st.c, Submitting) && |s.calls[st.c].tickets| < s.tasks)
    || (st.SendToken? && s.owner.Sending? && s.owner.tokens < s.tasks)
  }

  lemma RoomOrNot(s: State, st: Step)
    requires NeedsRoom(s, st)
    ensures Enabled(s, st) <==> |s.queue| < s.cap
  {
  }

  lemma ReturnOrNot(s: State, c: nat)
    requires CallIn(s, c, Waiting)
    ensures Enabled(s, CallerReturn(c)) <==> Released(s, c)
  {
  }

  lemma ExitOrNot(s: State)
    requires s.owner.Joining? && 0 < s.owner.left <= |s.workers|
    ensures Enabled(s, JoinOne) <==> s.workers[s.owner.left - 1].phase.Exited?
  {
  }

  lemma EmptyOrNot(s: State)
    requires s.owner.AwaitEmpty?
    ensures Enabled(s, SeeEmpty) <==> s.queue == []
  {
  }

  // While the next step is not possible a turn of the schedule is taken.
  lemma CarriedTurn(s: State, program: seq<Step>, schedule: seq<nat>)
    requires program != [] && !Enabled(s, program[0]) && schedule != []
    ensures Carried(s, program, schedule) == Carried(Turn(s, schedule[0]), program, schedule[1..])
  {
  }

  // Getting through

  // What is left of the program of call c.
  function CallRest(s: State, c: nat): seq<Step>
    requires c < |s.calls|
  {
    match s.calls[c].caller
    case Submitting =>
      Repeat(SendTicket(c), if |s.calls[c].tickets| < s.tasks then s.tasks - |s.calls[c].tickets| else 0)
      + CallTail(c)
    case Waiting => [CallerReturn(c)]
    case Returned => []
  }

  lemma CallRestStep(s: State, c: nat, st: Step)
    requires Enabled(s, st) && ByCaller(st, c)
    ensures c < |s.calls| == |Apply(s, st).calls| && CallRest(s, c) == [st] + CallRest(Apply(s, st), c)
    ensures Apply(s, st).owner == s.owner
    ensures forall d :: 0 <= d < |s.calls| && d != c ==> Apply(s, st).calls[d].caller == s.calls[d].caller
  {
  }

  lemma WorkerKeepsCallRest(s: State, c: nat, st: Step)
    requires Enabled(s, st) && st.ByWorker() && c < |s.calls|
    ensures c < |Apply(s, st).calls| && CallRest(Apply(s, st), c) == CallRest(s, c)
    ensures SameCalls(s.calls, Apply(s, st).calls) && Apply(s, st).owner == s.owner
  {
    OneStepEach(s, st);
    TurnKeepsCalls(s, st.w);
    ConstantsKept(s, st);
  }

  // The only call in progress gets through, with the workers scheduled as they can move.
  lemma {:induction false} CallGoesOn(s: State, c: nat) returns (schedule: seq<nat>)
    requires Inv(s) && s.owner.Open? && c < |s.calls| && s.cap >= 1 && s.tasks >= 1
    requires forall d :: 0 <= d < |s.calls| && d != c ==> s.calls[d].caller.Returned?
    ensures Carried(s, CallRest(s, c), schedule).program == []
    decreases Measure(s, 0)
  {
    hide Enabled, Apply, Inv, Measure;
    var program := CallRest(s, c);
    if program == [] {
      schedule := [];
    } else {
      OnlyCallMoves(s, c);
      if Enabled(s, program[0]) {
        assert ByCaller(program[0], c);
        CallRestStep(s, c, program[0]);
        InvKept(s, program[0]);
        MeasureFalls(s, program[0], 0);
        ConstantsKept(s, program[0]);
        schedule := CallGoesOn(Apply(s, program[0]), c);
        assert program[1..] == CallRest(Apply(s, program[0]), c);
      } else {
        var st :| Enabled(s, st) && (st.ByWorker() || ByCaller(st, c));
        if ByCaller(st, c) {
          CallRestStep(s, c, st);
        }
        WorkerKeepsCallRest(s, c, st);
        InvKept(s, st);
        MeasureFalls(s, st, 0);
        ConstantsKept(s, st);
        TurnIsTheStep(s, st.w);
        var rest := CallGoesOn(Apply(s, st), c);
        schedule := [st.w] + rest;
        assert schedule[1..] == rest;
      }
    }
  }

  // in_all_threads gets through, if no other call is in progress.
  lemma CallGetsThrough(s: State, mutexed: bool, body: Body) returns (schedule: seq<nat>)
    requires Reachable(s) && s.owner.Open? && InProgress(s) == {} && s.cap >= 1 && s.tasks >= 1
    ensures Carried(s, CallProgram(mutexed, body, s.tasks, |s.calls|), schedule).program == []
  {
    var st := StartCall(mutexed, body);
    var t := Apply(s, st);
    ReachableInv(s);
    InvKept(s, st);
    forall d | 0 <= d < |s.calls| ensures t.calls[d].caller.Returned? {
      assert d !in InProgress(s);
    }
    schedule := CallGoesOn(t, |s.calls|);
    var program := CallProgram(mutexed, body, s.tasks, |s.calls|);
    assert program[1..] == CallRest(t, |s.calls|);
    CarriedOwn(s, program, schedule);
  }

  // What is left of shutdown and join, once shutdown has begun.
  function OwnerRest(s: State): seq<Step> {
    match s.owner
    case Open => []
    case AwaitEmpty => [SeeEmpty, StoreStop] + (Repeat(SendToken, s.tasks) + JoinProgram(s.tasks))
    case Storing => [StoreStop] + (Repeat(SendToken, s.tasks) + JoinProgram(s.tasks))
    case Sending(k) => Repeat(SendToken, if k < s.tasks then s.tasks - k else 0) + JoinProgram(s.tasks)
    case Joining(left, _) => Repeat(JoinOne, left)
  }

  lemma OwnerRestStep(s: State, st: Step)
    requires Inv(s) && Enabled(s, st) && !s.owner.Open? && !st.ByWorker()
    ensures OwnerRest(s) == [st] + OwnerRest(Apply(s, st))
  {
    assert OwnerPlace(s);
    hide Basics, Accounted, MutexOk, BarriersOk, JoinProgram;
    match st
    case SeeEmpty =>
    case StoreStop => TokensLeft(s, st);
    case SendToken => RepeatStep(SendToken, s.tasks - s.owner.tokens, JoinProgram(s.tasks));
    case BeginJoin => TokensLeft(s, st);
    case JoinOne =>
  }

  lemma TokensLeft(s: State, st: Step)
    requires Enabled(s, st) && (st.StoreStop? || st.BeginJoin?)
    ensures OwnerRest(s) == [st] + OwnerRest(Apply(s, st))
  {
    if st.BeginJoin? {
      assert Repeat(SendToken, 0) + JoinProgram(s.tasks) == JoinProgram(s.tasks);
    }
  }

  lemma WorkerKeepsOwnerRest(s: State, st: Step)
    requires Enabled(s, st) && st.ByWorker()
    ensures OwnerRest(Apply(s, st)) == OwnerRest(s) && Apply(s, st).owner == s.owner
  {
    OneStepEach(s, st);
    TurnKeepsCalls(s, st.w);
  }

  // The tokens of the shutdown fit, or it is still to be seen.
  ghost predicate WillFit(s: State) {
    s.cap >= 1 && s.tasks >= 1 && ((s.mode.CompletePending? && s.cap >= s.tasks) || Room(s))
  }

  lemma FitMoves(s: State)
    requires ShutdownOk(s) && WillFit(s) && !s.owner.Open? && !Joined(s)
    ensures !Stuck(s)
  {
    ShutdownMoves(s);
  }

  lemma FitKept(s: State, st: Step)
    requires ShutdownOk(s) && WillFit(s) && Enabled(s, st)
    ensures WillFit(Apply(s, st))
  {
    ConstantsKept(s, st);
    if Room(s) {
      RoomKept(s, st);
    }
  }

  lemma {:induction false} ShutdownGoesOn(s: State) returns (schedule: seq<nat>)
    requires ShutdownOk(s) && WillFit(s) && !s.owner.Open?
    ensures Carried(s, OwnerRest(s), schedule).program == []
    decreases Measure(s, 0)
  {
    hide Enabled, Apply, Inv, Measure, WillFit, ShutdownOk;
    var program := OwnerRest(s);
    if program == [] {
      schedule := [];
    } else {
      assert !Joined(s);
      FitMoves(s);
      var st :| Enabled(s, st);
      assert Inv(s) by {
        ShutdownInv(s);
      }
      if Enabled(s, program[0]) {
        st := program[0];
        OwnerProgram(s);
      }
      ClosedStays(s, st);
      ShutdownOkKept(s, st);
      FitKept(s, st);
      MeasureFalls(s, st, 0);
      schedule := ShutdownGoesOn(Apply(s, st));
      if st.ByWorker() {
        WorkerKeepsOwnerRest(s, st);
        TurnIsTheStep(s, st.w);
        var rest := schedule;
        schedule := [st.w] + rest;
        assert schedule[1..] == rest;
      } else {
        OwnerRestStep(s, st);
        assert program[1..] == OwnerRest(Apply(s, st));
      }
    }
  }

  lemma ShutdownInv(s: State)
    requires ShutdownOk(s)
    ensures Inv(s)
  {
  }

  lemma OwnerProgram(s: State)
    requires OwnerRest(s) != []
    ensures !OwnerRest(s)[0].ByWorker()
  {
  }

  // shutdown and join get through if the stop tokens fit: in CompletePending mode if the queue is not
  // smaller than the number of threads, and in any mode if it has room for all that is pending besides.
  lemma ShutdownGetsThrough(s: State) returns (schedule: seq<nat>)
    requires Reachable(s) && Enabled(s, Close) && s.cap >= 1 && s.tasks >= 1
    requires (s.mode.CompletePending? && s.cap >= s.tasks) || (s.mode.Immediate? && |s.queue| + s.tasks <= s.cap)
    ensures Carried(s, ShutdownProgram(s.mode, s.tasks) + JoinProgram(s.tasks), schedule).program == []
  {
    var t := Apply(s, Close);
    ReachableShutdownOk(s);
    ShutdownOkKept(s, Close);
    CloseFits(s);
    hide Apply, Enabled, ShutdownOk, WillFit, OwnerRest, Repeat;
    schedule := ShutdownGoesOn(t);
    CarriedOwn(s, ShutdownProgram(s.mode, s.tasks) + JoinProgram(s.tasks), schedule);
  }

  lemma CloseFits(s: State)
    requires Enabled(s, Close) && s.cap >= 1 && s.tasks >= 1
    requires (s.mode.CompletePending? && s.cap >= s.tasks) || (s.mode.Immediate? && |s.queue| + s.tasks <= s.cap)
    ensures var t := Apply(s, Close); var program := ShutdownProgram(s.mode, s.tasks) + JoinProgram(s.tasks);
      !t.owner.Open? && WillFit(t) && program[0] == Close && program[1..] == OwnerRest(t)
  {
    AfterClose(s.mode, s.tasks);
    hide Repeat, JoinProgram, ShutdownProgram;
  }

  lemma AfterClose(mode: Mode, tasks: nat)
    ensures var program := ShutdownProgram(mode, tasks) + JoinProgram(tasks);
      && program[0] == Close
      && program[1..] == (if mode.CompletePending? then [SeeEmpty, StoreStop] else [StoreStop])
                           + (Repeat(SendToken, tasks) + JoinProgram(tasks))
  {
    hide Repeat, JoinProgram;
    var tail := Repeat(SendToken, tasks) + JoinProgram(tasks);
    var first := if mode.CompletePending? then [SeeEmpty, StoreStop] else [StoreStop];
    assert ShutdownProgram(mode, tasks) == [Close] + first + Repeat(SendToken, tasks);
    assert ShutdownProgram(mode, tasks) + JoinProgram(tasks) == [Close] + (first + tail);
  }
}
