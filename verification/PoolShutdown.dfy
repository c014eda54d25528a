// shutdown and join: the stop-token count, termination, and exactly when shutdown gets through.
module PoolShutdown {

  import opened Counting
  import opened Pool
  import opened PoolInvariant
  import opened PoolSafety

  // The workers that will still take a command: those already inside dequeue.
  ghost function Dequeuers(s: State): set<nat> {
    set w: nat | w < |s.workers| && s.workers[w].phase.Dequeuing?
  }

  // What the queue will hold, once everything is sent and everybody inside dequeue is served.
  ghost function Slack(s: State): int {
    |s.queue| + s.tasks - Tokens(s) - |Dequeuers(s)|
  }

  // The stop-token count: nobody who is inside dequeue is left without a command.
  ghost predicate TokensCover(s: State) {
    s.stopped ==> |Dequeuers(s)| <= |s.queue| + s.tasks - Tokens(s)
  }

  ghost predicate ShutdownOk(s: State) {
    && Inv(s)
    && WorkersGone(s)
    && TokensCover(s)
    && (s.stopped && s.mode.CompletePending? ==> Slack(s) <= s.tasks)
  }

  lemma DequeuersStep(s: State, st: Step)
    requires Inv(s) && Enabled(s, st)
    ensures st.Take? ==> |Dequeuers(Apply(s, st))| == |Dequeuers(s)| - 1
    ensures !st.Take? && (s.stopped || !st.Check?) ==> Dequeuers(Apply(s, st)) == Dequeuers(s)
  {
    var t := Apply(s, st);
    if st.Take? {
      assert st.w in Dequeuers(s);
      assert Dequeuers(t) == Dequeuers(s) - {st.w};
    } else if s.stopped || !st.Check? {
      forall w: nat ensures w in Dequeuers(t) <==> w in Dequeuers(s) {
      }
    }
  }

  // After the stop, no step changes the slack.
  lemma SlackKept(s: State, st: Step)
    requires Inv(s) && s.stopped && Enabled(s, st)
    ensures Apply(s, st).stopped && Slack(Apply(s, st)) == Slack(s)
    ensures Apply(s, st).cap == s.cap && Apply(s, st).tasks == s.tasks
  {
    DequeuersStep(s, st);
  }

  lemma {:induction false} SlackConserved(s: State, steps: seq<Step>)
    requires Inv(s) && s.stopped && CanRun(s, steps)
    ensures Run(s, steps).stopped && Slack(Run(s, steps)) == Slack(s)
    ensures Run(s, steps).cap == s.cap && Run(s, steps).tasks == s.tasks
    decreases |steps|
  {
    hide Apply, Enabled, Inv, Slack;
    if steps != [] {
      SlackKept(s, steps[0]);
      InvKept(s, steps[0]);
      SlackConserved(Apply(s, steps[0]), steps[1..]);
    }
  }

  lemma CoverKept(s: State, st: Step)
    requires ShutdownOk(s) && Enabled(s, st)
    ensures TokensCover(Apply(s, st))
    ensures Apply(s, st).stopped && s.mode.CompletePending? ==> Slack(Apply(s, st)) <= s.tasks
  {
    DequeuersStep(s, st);
    if st.StoreStop? {
      SubsetSize(Dequeuers(s), Below(s.tasks));
    }
  }

  lemma ShutdownOkKept(s: State, st: Step)
    requires ShutdownOk(s) && Enabled(s, st)
    ensures ShutdownOk(Apply(s, st))
  {
    hide Apply, Enabled, Inv, WorkersGone, TokensCover, Slack;
    InvKept(s, st);
    WorkersGoneKept(s, st);
    CoverKept(s, st);
    ConstantsKept(s, st);
  }

  lemma {:induction false} ShutdownOkAlongRun(s: State, steps: seq<Step>)
    requires ShutdownOk(s) && CanRun(s, steps)
    ensures ShutdownOk(Run(s, steps))
    decreases |steps|
  {
    hide Apply, Enabled, ShutdownOk;
    if steps != [] {
      ShutdownOkKept(s, steps[0]);
      ShutdownOkAlongRun(Apply(s, steps[0]), steps[1..]);
    }
  }

  lemma ReachableShutdownOk(s: State)
    requires Reachable(s)
    ensures ShutdownOk(s)
  {
    var s0 := Init(s.cap, s.tasks, s.mode);
    var steps :| CanRun(s0, steps) && Run(s0, steps) == s;
    InvInit(s.cap, s.tasks, s.mode);
    ShutdownOkAlongRun(s0, steps);
  }

  // No worker is stranded: once every token is sent, the queue holds a command for every worker
  // that is inside dequeue.
  lemma NoWorkerStranded(s: State)
    requires Reachable(s) && s.stopped
    ensures |Dequeuers(s)| + Tokens(s) <= |s.queue| + s.tasks
    ensures s.owner.Joining? ==> |Dequeuers(s)| <= |s.queue|
  {
    ReachableShutdownOk(s);
  }

  // The commands taken between s and t went to different workers, all inside dequeue at s.
  ghost predicate OneEach(s: State, t: State) {
    && |s.taker| <= |t.taker| && s.taker == t.taker[..|s.taker|]
    && Distinct(t.taker[|s.taker|..])
    && (forall w :: w in t.taker[|s.taker|..] ==> w in Dequeuers(s))
  }

  lemma OneEachStep(s: State, st: Step, t: State)
    requires Inv(s) && s.stopped && Enabled(s, st) && OneEach(Apply(s, st), t)
    ensures OneEach(s, t)
  {
    var m := Apply(s, st);
    var later := t.taker[|m.taker|..];
    if st.Take? {
      assert t.taker[|s.taker|..] == [st.w] + later;
      assert st.w in Dequeuers(s) && st.w !in Dequeuers(m);
      forall v | v in later ensures v in Dequeuers(s) {
        assert v in Dequeuers(m);
      }
    } else {
      DequeuersStep(s, st);
      assert m.taker == s.taker;
    }
  }

  // Once `stopped` is set each worker dequeues at most once more.
  lemma {:induction false} OneMoreEach(s: State, steps: seq<Step>)
    requires Inv(s) && s.stopped && CanRun(s, steps)
    ensures OneEach(s, Run(s, steps))
    decreases |steps|
  {
    hide Apply, Enabled, Inv;
    if steps != [] {
      SlackKept(s, steps[0]);
      InvKept(s, steps[0]);
      OneMoreEach(Apply(s, steps[0]), steps[1..]);
      OneEachStep(s, steps[0], Run(s, steps));
    } else {
      assert s.taker[|s.taker|..] == [];
    }
  }

  // Termination

  // x is what a command's execution may hand on to another pool; 0 for a pool by itself.
  function Rank(p: Phase, x: nat): nat {
    match p
    case CheckStop => 2
    case Dequeuing => 1
    case Executing(_) => x + 3
    case Entering(_) => x + 6
    case InBody(_) => x + 5
    case Arriving(_) => 4
    case AtBarrier(_) => 3
    case Exited => 0
  }

  function CallRank(call: Call, tasks: nat, x: nat): nat {
    match call.caller
    case Submitting => (if |call.tickets| < tasks then tasks - |call.tickets| else 0) * (x + 7) + 2
    case Waiting => 1
    case Returned => 0
  }

  function OwnerRank(owner: Owner, tasks: nat, x: nat): nat {
    match owner
    case Open => tasks * (x + 7) + tasks + 5
    case AwaitEmpty => tasks * (x + 7) + tasks + 4
    case Storing => tasks * (x + 7) + tasks + 3
    case Sending(k) => (if k < tasks then tasks - k else 0) * (x + 7) + tasks + 2
    case Joining(left, _) => left
  }

  function Ranks(s: State, x: nat): seq<nat> {
    seq(|s.workers|, w requires 0 <= w < |s.workers| => Rank(s.workers[w].phase, x))
  }

  function CallRanks(s: State, x: nat): seq<nat> {
    seq(|s.calls|, c requires 0 <= c < |s.calls| => CallRank(s.calls[c], s.tasks, x))
  }

  function Measure(s: State, x: nat): nat {
    |s.queue| * (x + 6) + Sum(Ranks(s, x)) + Sum(CallRanks(s, x)) + OwnerRank(s.owner, s.tasks, x)
  }

  lemma RanksUpdate(s: State, t: State, w: nat, x: nat)
    requires w < |s.workers| == |t.workers| && t.workers == s.workers[w := t.workers[w]]
    ensures Sum(Ranks(t, x)) + Rank(s.workers[w].phase, x) == Sum(Ranks(s, x)) + Rank(t.workers[w].phase, x)
  {
    assert Ranks(t, x) == Ranks(s, x)[w := Rank(t.workers[w].phase, x)];
    SumUpdate(Ranks(s, x), w, Rank(t.workers[w].phase, x));
  }

  lemma CallRanksUpdate(s: State, t: State, c: nat, x: nat)
    requires c < |s.calls| == |t.calls| && t.calls == s.calls[c := t.calls[c]] && t.tasks == s.tasks
    ensures Sum(CallRanks(t, x)) + CallRank(s.calls[c], s.tasks, x) ==
      Sum(CallRanks(s, x)) + CallRank(t.calls[c], t.tasks, x)
  {
    assert CallRanks(t, x) == CallRanks(s, x)[c := CallRank(t.calls[c], t.tasks, x)];
    SumUpdate(CallRanks(s, x), c, CallRank(t.calls[c], t.tasks, x));
  }

  // A worker's step lowers its rank; finishing a command or f lowers it by more than x.
  lemma WorkerMeasure(s: State, st: Step, x: nat)
    requires Inv(s) && Enabled(s, st) && st.ByWorker()
    ensures Measure(Apply(s, st), x) < Measure(s, x)
    ensures st.Finish? || st.EndBody? ==> Measure(Apply(s, st), x) + x < Measure(s, x)
  {
    var t := Apply(s, st);
    RankFalls(s, st, x);
    CallRanksSame(s, st, x);
    hide Apply, Enabled, Inv, Rank;
    RanksUpdate(s, t, st.w, x);
    if st.Take? {
      MultiplyStep(|s.queue|, x + 6);
    }
  }

  lemma RankFalls(s: State, st: Step, x: nat)
    requires Enabled(s, st) && st.ByWorker()
    ensures var t := Apply(s, st);
      && st.w < |s.workers| == |t.workers| && t.workers == s.workers[st.w := t.workers[st.w]]
      && t.owner == s.owner && t.tasks == s.tasks
      && |t.queue| == (if st.Take? then |s.queue| - 1 else |s.queue|)
      && Rank(t.workers[st.w].phase, x) < Rank(s.workers[st.w].phase, x) + (if st.Take? then x + 6 else 0)
      && (st.Finish? || st.EndBody? ==> Rank(t.workers[st.w].phase, x) + x < Rank(s.workers[st.w].phase, x))
  {
  }

  lemma CallRanksSame(s: State, st: Step, x: nat)
    requires Enabled(s, st) && st.ByWorker()
    ensures Sum(CallRanks(Apply(s, st), x)) == Sum(CallRanks(s, x))
  {
    var t := Apply(s, st);
    forall c | 0 <= c < |s.calls| ensures CallRank(t.calls[c], t.tasks, x) == CallRank(s.calls[c], s.tasks, x) {
    }
    assert CallRanks(t, x) == CallRanks(s, x);
  }

  lemma OwnerMeasure(s: State, st: Step, x: nat)
    requires Inv(s) && Enabled(s, st) && !st.ByWorker() && !st.External()
    ensures Measure(Apply(s, st), x) < Measure(s, x)
  {
    var t := Apply(s, st);
    assert Ranks(t, x) == Ranks(s, x);
    if st.SendTicket? {
      CallRanksUpdate(s, t, st.c, x);
      MultiplyStep(s.tasks - |s.calls[st.c].tickets|, x + 7);
      MultiplyStep(|t.queue|, x + 6);
    } else if st.CallerArrive? || st.CallerReturn? {
      CallRanksUpdate(s, t, st.c, x);
    } else {
      assert CallRanks(t, x) == CallRanks(s, x);
      if st.SendToken? {
        MultiplyStep(s.tasks - s.owner.tokens, x + 7);
        MultiplyStep(|t.queue|, x + 6);
      }
    }
  }

  lemma ExternalMeasure(s: State, st: Step, x: nat)
    requires Enabled(s, st) && st.External()
    ensures st.Submit? ==> Measure(Apply(s, st), x) == Measure(s, x) + x + 6
    ensures st.StartCall? ==> Measure(Apply(s, st), x) == Measure(s, x) + s.tasks * (x + 7) + 2
  {
    var t := Apply(s, st);
    assert Ranks(t, x) == Ranks(s, x);
    if st.Submit? {
      assert CallRanks(t, x) == CallRanks(s, x);
      MultiplyStep(|t.queue|, x + 6);
    } else {
      assert CallRanks(t, x) == CallRanks(s, x) + [CallRank(t.calls[|s.calls|], s.tasks, x)];
      SumAppend(CallRanks(s, x), CallRank(t.calls[|s.calls|], s.tasks, x));
    }
  }

  lemma MeasureFalls(s: State, st: Step, x: nat)
    requires Inv(s) && Enabled(s, st) && !st.External()
    ensures Measure(Apply(s, st), x) < Measure(s, x)
  {
    if st.ByWorker() {
      WorkerMeasure(s, st, x);
    } else {
      OwnerMeasure(s, st, x);
    }
  }

  ghost predicate NoExternal(steps: seq<Step>) {
    forall st :: st in steps ==> !st.External()
  }

  // Left to itself, the pool takes no more steps than its measure.
  lemma {:induction false} RunsAreFinite(s: State, steps: seq<Step>)
    requires Inv(s) && CanRun(s, steps) && NoExternal(steps)
    ensures |steps| + Measure(Run(s, steps), 0) <= Measure(s, 0)
    decreases |steps|
  {
    hide Apply, Enabled, Inv, Measure;
    if steps != [] {
      MeasureFalls(s, steps[0], 0);
      InvKept(s, steps[0]);
      assert NoExternal(steps[1..]);
      RunsAreFinite(Apply(s, steps[0]), steps[1..]);
    }
  }

  // Once shutdown has begun nothing comes in from outside any more.
  lemma ClosedStays(s: State, st: Step)
    requires !s.owner.Open? && Enabled(s, st)
    ensures !st.External() && !Apply(s, st).owner.Open?
  {
  }

  lemma {:induction false} ClosedNoExternal(s: State, steps: seq<Step>)
    requires !s.owner.Open? && CanRun(s, steps)
    ensures NoExternal(steps)
    decreases |steps|
  {
    hide Apply, Enabled;
    if steps != [] {
      ClosedStays(s, steps[0]);
      ClosedNoExternal(Apply(s, steps[0]), steps[1..]);
      assert forall st :: st in steps ==> st == steps[0] || st in steps[1..];
    }
  }

  // From the beginning of shutdown on, every run is bounded by the measure, which falls at each step.
  lemma ShutdownRunsAreFinite(s: State, steps: seq<Step>)
    requires Reachable(s) && !s.owner.Open? && CanRun(s, steps)
    ensures |steps| + Measure(Run(s, steps), 0) <= Measure(s, 0)
  {
    ReachableInv(s);
    ClosedNoExternal(s, steps);
    RunsAreFinite(s, steps);
  }

  // Progress

  ghost predicate Stuck(s: State) {
    forall st :: !Enabled(s, st)
  }

  function NextOf(p: Phase, w: nat): Step {
    match p
    case CheckStop => Check(w)
    case Dequeuing => Take(w)
    case Executing(_) => Finish(w)
    case Entering(_) => Enter(w)
    case InBody(_) => EndBody(w)
    case Arriving(_) => Arrive(w)
    case AtBarrier(_) => Leave(w)
    case Exited => Check(w)
  }

  // The commands of calls that have returned never block a worker.
  lemma WorkerMoves(s: State, w: nat)
    requires Inv(s) && w < |s.workers|
    requires forall c :: 0 <= c < |s.calls| ==> s.calls[c].caller.Returned?
    requires !s.workers[w].phase.Exited? && (s.workers[w].phase.Dequeuing? ==> s.queue != [])
    ensures Enabled(s, NextOf(s.workers[w].phase, w))
  {
    assert WorkerOk(s, w);
    if s.workers[w].phase.Entering? {
      NoLateBody(s, s.accepted[s.workers[w].phase.i].call, w);
      assert false;
    }
  }

  // Once shutdown has begun: while the slack fits into the queue, something can always move.
  lemma ShutdownMoves(s: State)
    requires ShutdownOk(s) && !s.owner.Open? && !Joined(s) && s.cap >= 1 && s.tasks >= 1
    requires s.stopped ==> Slack(s) <= s.cap
    ensures !Stuck(s)
  {
    if w: nat :| w < |s.workers| && !s.workers[w].phase.Exited? && (s.workers[w].phase.Dequeuing? ==> s.queue != []) {
      WorkerMoves(s, w);
    } else {
      match s.owner
      case AwaitEmpty =>
        assert WorkerOk(s, 0);
        assert Enabled(s, SeeEmpty);
      case Storing => assert Enabled(s, StoreStop);
      case Sending(k) =>
        if k == s.tasks {
          assert Enabled(s, BeginJoin);
        } else {
          if s.queue != [] {
            assert Dequeuers(s) == {};
          }
          assert Enabled(s, SendToken);
        }
      case Joining(left, _) =>
        if s.queue != [] {
          assert s.workers[left - 1].phase.Exited?;
        } else {
          assert Dequeuers(s) == {};
          assert left - 1 !in Dequeuers(s);
        }
        assert Enabled(s, JoinOne);
    }
  }

  lemma JoinedSlack(s: State)
    requires ShutdownOk(s) && Joined(s)
    ensures Slack(s) == |s.queue| <= s.cap
  {
    assert Dequeuers(s) == {};
  }

  // From any state some run leads to a stuck one.
  lemma {:induction false} ReachesStuck(s: State) returns (steps: seq<Step>)
    requires Inv(s) && !s.owner.Open?
    ensures CanRun(s, steps) && Stuck(Run(s, steps))
    decreases Measure(s, 0)
  {
    if Stuck(s) {
      steps := [];
    } else {
      var st :| Enabled(s, st);
      InvKept(s, st);
      MeasureFalls(s, st, 0);
      var rest := ReachesStuck(Apply(s, st));
      steps := [st] + rest;
      assert steps[1..] == rest;
    }
  }

  // Shutdown and join get through if and only if the slack at the stop fits into the queue; then
  // they get through in every run, and otherwise in none.
  lemma ShutdownCompletesIff(s: State)
    requires Reachable(s) && s.stopped && s.cap >= 1 && s.tasks >= 1
    ensures Slack(s) <= s.cap <==> exists t :: Leads(s, t) && Joined(t)
    ensures Slack(s) <= s.cap ==> forall t :: Leads(s, t) && Stuck(t) ==> Joined(t)
    ensures forall t :: Leads(s, t) && Joined(t) ==> |t.queue| == Slack(s)
  {
    ReachableShutdownOk(s);
    forall t | Leads(s, t) ensures ShutdownOk(t) && Slack(t) == Slack(s) && t.cap == s.cap && t.tasks == s.tasks && t.stopped {
      var steps :| CanRun(s, steps) && Run(s, steps) == t;
      SlackConserved(s, steps);
      ShutdownOkAlongRun(s, steps);
    }
    forall t | Leads(s, t) ensures Joined(t) ==> |t.queue| == Slack(s) <= s.cap {
      if Joined(t) {
        JoinedSlack(t);
      }
    }
    if Slack(s) <= s.cap {
      forall t | Leads(s, t) && Stuck(t) ensures Joined(t) {
        if !Joined(t) {
          ShutdownMoves(t);
        }
      }
      var steps := ReachesStuck(s);
      assert Leads(s, Run(s, steps));
    }
  }

  // In Immediate mode, room for the pending commands and the stop tokens together is enough.
  lemma ImmediateRoom(s: State)
    requires Reachable(s) && s.owner.Storing? && s.cap >= 1 && s.tasks >= 1
    requires |s.queue| + s.tasks <= s.cap
    ensures forall t :: Leads(s, t) && Stuck(t) ==> Joined(t)
  {
    ReachableShutdownOk(s);
    forall t | Leads(s, t) && Stuck(t) ensures Joined(t) {
      var steps :| CanRun(s, steps) && Run(s, steps) == t;
      RoomAlongRun(s, steps);
      ShutdownOkAlongRun(s, steps);
      if !Joined(t) {
        ShutdownMoves(t);
      }
    }
  }

  ghost predicate Room(s: State) {
    (s.owner.Storing? && |s.queue| + s.tasks <= s.cap) || (s.stopped && Slack(s) <= s.cap)
  }

  lemma RoomKept(s: State, st: Step)
    requires ShutdownOk(s) && Room(s) && Enabled(s, st)
    ensures Room(Apply(s, st)) && Apply(s, st).cap == s.cap && Apply(s, st).tasks == s.tasks
  {
    DequeuersStep(s, st);
  }

  lemma {:induction false} RoomAlongRun(s: State, steps: seq<Step>)
    requires ShutdownOk(s) && Room(s) && CanRun(s, steps)
    ensures Room(Run(s, steps)) && Run(s, steps).cap == s.cap && Run(s, steps).tasks == s.tasks
    decreases |steps|
  {
    hide Apply, Enabled, ShutdownOk, Room;
    if steps != [] {
      ShutdownOkKept(s, steps[0]);
      RoomKept(s, steps[0]);
      RoomAlongRun(Apply(s, steps[0]), steps[1..]);
    }
  }

  // n commands are submitted before any worker has looked at `stopped`.
  lemma {:induction false} Submits(s0: State, n: nat) returns (s: State)
    requires s0 == Init(s0.cap, s0.tasks, s0.mode) && n <= s0.cap
    ensures Leads(s0, s) && |s.queue| == n
    ensures s == s0.(queue := s.queue, accepted := s.accepted)
  {
    if n == 0 {
      LeadsStart(s0);
      s := s0;
    } else {
      s := Submits(s0, n - 1);
      LeadsStep(s0, s, Submit(Work({}, Ok)));
      s := Apply(s, Submit(Work({}, Ok)));
    }
  }

  // All of them leave without taking a command, so n commands and every token have to fit.
  lemma BlockedImmediate(cap: nat, tasks: nat, n: nat) returns (s: State, t: State)
    requires 1 <= tasks && n <= cap < n + tasks
    ensures Leads(Init(cap, tasks, Immediate), s) && s.owner.Storing? && |s.queue| == n
    ensures Leads(s, t) && Stuck(t) && !Joined(t)
  {
    var s0 := Init(cap, tasks, Immediate);
    s := Submits(s0, n);
    LeadsStep(s0, s, Close); s := Apply(s, Close);
    var u := Apply(s, StoreStop);
    LeadsStart(s);
    LeadsStep(s, s, StoreStop);
    LeadsStep(s0, s, StoreStop);
    ReachableShutdownOk(u);
    assert Dequeuers(u) == {};
    var rest := ReachesStuck(u);
    t := Run(u, rest);
    assert Leads(u, t);
    LeadsTrans(s, u, t);
    SlackConserved(u, rest);
    ShutdownOkAlongRun(u, rest);
    if Joined(t) {
      JoinedSlack(t);
    }
  }

  // Immediate over whole runs: a shutdown that finds at most n commands in the queue can never get
  // stuck if and only if the queue has room for n commands and one stop token per worker.
  lemma ImmediateSafeIff(cap: nat, tasks: nat, n: nat)
    requires cap >= 1 && tasks >= 1
    ensures
      (forall s, t ::
         Leads(Init(cap, tasks, Immediate), s) && s.owner.Storing? && |s.queue| <= n && Leads(s, t) && Stuck(t) ==> Joined(t))
      <==> n + tasks <= cap
  {
    var s0 := Init(cap, tasks, Immediate);
    if n + tasks <= cap {
      forall s, t | Leads(s0, s) && s.owner.Storing? && |s.queue| <= n && Leads(s, t) && Stuck(t) ensures Joined(t) {
        var steps :| CanRun(s0, steps) && Run(s0, steps) == s;
        ConstantsAlongRun(s0, steps);
        ImmediateRoom(s);
      }
    } else {
      var s, t := BlockedImmediate(cap, tasks, if n <= cap then n else cap);
    }
  }

  // CompletePending over whole runs: shutdown and join can never get stuck if and only if the
  // queue has room for one stop token per worker.
  lemma CompletePendingSafeIff(cap: nat, tasks: nat)
    requires cap >= 1 && tasks >= 1
    ensures
      (forall t ::
         Leads(Init(cap, tasks, CompletePending), t) && !t.owner.Open? && Stuck(t) ==> Joined(t))
      <==> cap >= tasks
  {
    var s0 := Init(cap, tasks, CompletePending);
    InvInit(cap, tasks, CompletePending);
    if cap >= tasks {
      forall t | Leads(s0, t) && !t.owner.Open? && Stuck(t) ensures Joined(t) {
        var steps :| CanRun(s0, steps) && Run(s0, steps) == t;
        ShutdownOkAlongRun(s0, steps);
        ConstantsAlongRun(s0, steps);
        if !Joined(t) {
          ShutdownMoves(t);
        }
      }
    } else {
      var t := BlockedShutdown(cap, tasks);
    }
  }

  lemma ConstantsKept(s: State, st: Step)
    requires Enabled(s, st)
    ensures Apply(s, st).cap == s.cap && Apply(s, st).tasks == s.tasks && Apply(s, st).mode == s.mode
  {
  }

  lemma {:induction false} ConstantsAlongRun(s: State, steps: seq<Step>)
    requires CanRun(s, steps)
    ensures Run(s, steps).cap == s.cap && Run(s, steps).tasks == s.tasks && Run(s, steps).mode == s.mode
    decreases |steps|
  {
    hide Apply, Enabled;
    if steps != [] {
      ConstantsKept(s, steps[0]);
      ConstantsAlongRun(Apply(s, steps[0]), steps[1..]);
    }
  }

  // shutdown right after the start, before any worker has looked at `stopped`: every worker
  // leaves, and the queue cannot take all the tokens.
  lemma BlockedShutdown(cap: nat, tasks: nat) returns (t: State)
    requires 1 <= cap < tasks
    ensures Leads(Init(cap, tasks, CompletePending), t) && !t.owner.Open? && Stuck(t) && !Joined(t)
  {
    var s0 := Init(cap, tasks, CompletePending);
    InvInit(cap, tasks, CompletePending);
    var s := s0.(owner := Sending(0), stopped := true);
    assert Leads(s0, s) by {
      LeadsStart(s0);
      LeadsStep(s0, s0, Close);
      LeadsStep(s0, Apply(s0, Close), SeeEmpty);
      LeadsStep(s0, Apply(Apply(s0, Close), SeeEmpty), StoreStop);
    }
    ReachableShutdownOk(s);
    assert Dequeuers(s) == {};
    var rest := ReachesStuck(s);
    t := Run(s, rest);
    assert Leads(s, t);
    LeadsTrans(s0, s, t);
    SlackConserved(s, rest);
    ShutdownOkAlongRun(s, rest);
    if Joined(t) {
      JoinedSlack(t);
    }
  }
}
