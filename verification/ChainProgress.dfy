// The chain never deadlocks, and every run of it ends.
module ChainProgress {

  import opened Counting
  import opened Wrappers
  import opened Pool
  import opened PoolInvariant
  import opened PoolSafety
  import opened PoolShutdown
  import opened PoolCalls
  import opened Chain

  // What the work of one command at stage k of n may still cost further down.
  function Weight(n: nat, k: nat): nat {
    if k < n then 6 * (n - 1 - k) else 0
  }

  // The measure of a pool, with a reserve for the call of in_all_threads still to be made.
  function PoolCost(p: State, linked: nat, x: nat): nat {
    Measure(p, x) + if |p.calls| <= linked then p.tasks * (x + 7) + 3 else 0
  }

  function LinkedBefore(s: ChainState, k: nat): nat {
    if k < |s.linked| then s.linked[k] else 0
  }

  function Costs(s: ChainState): seq<nat> {
    seq(|s.pools|, k requires 0 <= k < |s.pools| => PoolCost(s.pools[k], LinkedBefore(s, k), Weight(|s.pools|, k)))
  }

  function Left(n: nat, done: nat): nat {
    if done < n then n - done else 0
  }

  function FeedCost(left: nat, x: nat): nat {
    left * (x + 7)
  }

  function ChainMeasure(s: ChainState): nat {
    Sum(Costs(s)) + FeedCost(Left(|s.sources|, s.fed), Weight(|s.pools|, 0)) + Left(|s.pools|, s.stage)
  }

  lemma PoolStepCost(s: ChainState, k: nat, st: Step)
    requires k < |s.pools| && Enabled(s.pools[k], st)
    ensures var x := Weight(|s.pools|, k);
      Sum(Costs(PoolStep(s, k, st))) + PoolCost(s.pools[k], LinkedBefore(s, k), x) ==
        Sum(Costs(s)) + PoolCost(Apply(s.pools[k], st), LinkedBefore(s, k), x)
  {
    var x := Weight(|s.pools|, k);
    assert Costs(PoolStep(s, k, st)) == Costs(s)[k := PoolCost(Apply(s.pools[k], st), LinkedBefore(s, k), x)];
    SumUpdate(Costs(s), k, PoolCost(Apply(s.pools[k], st), LinkedBefore(s, k), x));
  }

  lemma WorkerCost(s: ChainState, k: nat, st: Step)
    requires ChainOk(s) && k < |s.pools| && st.ByWorker() && Enabled(s.pools[k], st)
    ensures Sum(Costs(PoolStep(s, k, st))) < Sum(Costs(s))
    ensures st.Finish? || st.EndBody? ==> Sum(Costs(PoolStep(s, k, st))) + Weight(|s.pools|, k) < Sum(Costs(s))
  {
    assert StageOk(s, k);
    ReachableInv(s.pools[k]);
    WorkerMeasure(s.pools[k], st, Weight(|s.pools|, k));
    PoolStepCost(s, k, st);
    assert |Apply(s.pools[k], st).calls| == |s.pools[k].calls|;
  }

  lemma DeliverCost(s: ChainState, k: nat, e: Option<set<int>>)
    requires k < |s.pools| && CanDeliver(s, k, e)
    ensures Sum(Costs(Deliver(s, k, e))) <= Sum(Costs(s)) + Weight(|s.pools|, k)
    ensures e.None? ==> Deliver(s, k, e) == s
  {
    if e.Some? && k + 1 < |s.pools| {
      ExternalMeasure(s.pools[k + 1], Handed(e.value), Weight(|s.pools|, k + 1));
      PoolStepCost(s, k + 1, Handed(e.value));
    } else {
      assert Costs(Deliver(s, k, e)) == Costs(s);
    }
  }

  // Handing something on costs less than the worker's step has saved.
  lemma InPoolCost(s: ChainState, k: nat, st: Step)
    requires ChainOk(s) && CanMove(s, InPool(k, st))
    ensures ChainMeasure(Do(s, InPool(k, st))) < ChainMeasure(s)
  {
    var e := Emission(s.kinds[k], s.pools[k], st);
    WorkerCost(s, k, st);
    DeliverCost(PoolStep(s, k, st), k, e);
  }

  lemma FeedMoveCost(s: ChainState)
    requires CanMove(s, Feed)
    ensures ChainMeasure(Do(s, Feed)) < ChainMeasure(s)
  {
    hide Apply, Enabled, Measure;
    ExternalMeasure(s.pools[0], Handed({s.sources[s.fed]}), Weight(|s.pools|, 0));
    SubmitKeepsCalls(s.pools[0], {s.sources[s.fed]});
    PoolStepCost(s, 0, Handed({s.sources[s.fed]}));
    MultiplyStep(|s.sources| - s.fed, Weight(|s.pools|, 0) + 7);
    assert Costs(Do(s, Feed)) == Costs(PoolStep(s, 0, Handed({s.sources[s.fed]})));
  }

  lemma SubmitKeepsCalls(p: State, payload: set<int>)
    requires Enabled(p, Handed(payload))
    ensures Apply(p, Handed(payload)).calls == p.calls && Apply(p, Handed(payload)).tasks == p.tasks
  {
  }

  lemma MainStepCalls(p: State, st: Step)
    requires Enabled(p, st) && !st.ByWorker() && !st.Submit?
    ensures |Apply(p, st).calls| == |p.calls| + if st.StartCall? then 1 else 0
    ensures Apply(p, st).tasks == p.tasks
  {
  }

  lemma MainMoveCost(s: ChainState, st: Step)
    requires ChainOk(s) && CanMove(s, ByMain(st))
    ensures ChainMeasure(Do(s, ByMain(st))) < ChainMeasure(s)
  {
    hide Apply, Enabled, Measure;
    assert StageOk(s, s.stage);
    var x := Weight(|s.pools|, s.stage);
    ReachableInv(s.pools[s.stage]);
    PoolStepCost(s, s.stage, st);
    MainStepCalls(s.pools[s.stage], st);
    if st.StartCall? {
      ExternalMeasure(s.pools[s.stage], st, x);
    } else {
      OwnerMeasure(s.pools[s.stage], st, x);
    }
  }

  lemma MoveCost(s: ChainState, m: Move)
    requires ChainOk(s) && CanMove(s, m)
    ensures ChainMeasure(Do(s, m)) < ChainMeasure(s)
  {
    match m
    case Feed => FeedMoveCost(s);
    case InPool(k, st) => InPoolCost(s, k, st);
    case ByMain(st) => MainMoveCost(s, st);
    case NextStage => assert Costs(Do(s, m)) == Costs(s);
  }

  // Every run of the chain is finite.
  lemma {:induction false} ChainRunsAreFinite(s: ChainState, moves: seq<Move>)
    requires ChainOk(s) && CanMoveAll(s, moves)
    ensures |moves| + ChainMeasure(DoAll(s, moves)) <= ChainMeasure(s)
    decreases |moves|
  {
    if moves != [] {
      MoveCost(s, moves[0]);
      ChainOkKept(s, moves[0]);
      ChainRunsAreFinite(Do(s, moves[0]), moves[1..]);
    }
  }

  // Progress

  ghost predicate Blocked(s: ChainState) {
    forall m :: !CanMove(s, m)
  }

  // Every stage has a queue and a thread.
  ghost predicate Usable(s: ChainState) {
    forall k :: 0 <= k < |s.pools| ==> s.pools[k].cap >= 1 && s.pools[k].tasks >= 1
  }

  // Every stage has room for one stop token per thread.
  ghost predicate Roomy(s: ChainState) {
    Usable(s) && forall k :: 0 <= k < |s.pools| ==> s.pools[k].cap >= s.pools[k].tasks
  }

  // The shutdown of the current stage, if it has come to the stop tokens, can get through.
  ghost predicate Unclogged(s: ChainState) {
    s.stage < |s.pools| && s.pools[s.stage].stopped ==> Slack(s.pools[s.stage]) <= s.pools[s.stage].cap
  }

  lemma RoomyUnclogged(s: ChainState)
    requires ChainOk(s) && Roomy(s)
    ensures Unclogged(s)
  {
    if s.stage < |s.pools| {
      assert StageOk(s, s.stage);
      ReachableShutdownOk(s.pools[s.stage]);
    }
  }

  // No move changes the sizes of the pools.
  lemma SizesKept(s: ChainState, m: Move)
    requires CanMove(s, m)
    ensures var t := Do(s, m); |t.pools| == |s.pools| && t.kinds == s.kinds
    ensures var t := Do(s, m);
      forall k :: 0 <= k < |s.pools| ==> t.pools[k].cap == s.pools[k].cap && t.pools[k].tasks == s.pools[k].tasks
  {
    match m
    case Feed => ConstantsKept(s.pools[0], Handed({s.sources[s.fed]}));
    case InPool(k, st) =>
      ConstantsKept(s.pools[k], st);
      var e := Emission(s.kinds[k], s.pools[k], st);
      if e.Some? && k + 1 < |s.pools| {
        ConstantsKept(s.pools[k + 1], Handed(e.value));
      }
      hide Apply, Enabled;
    case ByMain(st) => ConstantsKept(s.pools[s.stage], st);
    case NextStage =>
  }

  lemma {:induction false} SizesAlong(s: ChainState, moves: seq<Move>)
    requires CanMoveAll(s, moves)
    ensures var t := DoAll(s, moves); |t.pools| == |s.pools| && t.kinds == s.kinds
    ensures var t := DoAll(s, moves);
      forall k :: 0 <= k < |s.pools| ==> t.pools[k].cap == s.pools[k].cap && t.pools[k].tasks == s.pools[k].tasks
    decreases |moves|
  {
    hide Do, CanMove;
    if moves != [] {
      SizesKept(s, moves[0]);
      SizesAlong(Do(s, moves[0]), moves[1..]);
    }
  }

  // Every stage from k + 1 on has room, if it exists.
  ghost predicate RoomBelow(s: ChainState, k: nat) {
    k + 1 < |s.pools| ==> s.pools[k + 1].owner.Open? && |s.pools[k + 1].queue| < s.pools[k + 1].cap
  }

  // In a blocked chain the stages after the current one are drained: the last one has nobody to
  // wait for, and each of the others only waits for the next.
  lemma {:induction false} DrainedBelow(s: ChainState, k: nat)
    requires ChainOk(s) && Usable(s) && Blocked(s) && s.stage < k < |s.pools|
    ensures s.pools[k].queue == []
    decreases |s.pools| - k
  {
    var p := s.pools[k];
    assert StageOk(s, k);
    ReachableInv(p);
    if p.queue != [] {
      if k + 1 < |s.pools| {
        DrainedBelow(s, k + 1);
        assert StageOk(s, k + 1);
      }
      assert WorkerOk(p, 0);
      WorkerMoves(p, 0);
      assert CanMove(s, InPool(k, NextOf(p.workers[0].phase, 0)));
    }
  }

  lemma StageMoves(s: ChainState)
    requires ChainOk(s) && Usable(s) && Unclogged(s) && s.stage < |s.pools| && RoomBelow(s, s.stage)
    requires !Joined(s.pools[s.stage])
    ensures !Blocked(s)
  {
    var p := s.pools[s.stage];
    assert StageOk(s, s.stage);
    ReachableShutdownOk(p);
    if !p.owner.Open? {
      ShutdownMoves(p);
      var st :| Enabled(p, st);
      if st.ByWorker() {
        assert CanMove(s, InPool(s.stage, st));
      } else {
        assert CanMove(s, ByMain(st));
      }
    } else if Flushing(s, s.stage) && !p.calls[s.linked[s.stage]].caller.Returned? {
      var c := s.linked[s.stage];
      OnlyCallMoves(p, c);
      var st :| Enabled(p, st) && (st.ByWorker() || ByCaller(st, c));
      if st.ByWorker() {
        assert CanMove(s, InPool(s.stage, st));
      } else {
        assert CanMove(s, ByMain(st));
      }
    } else {
      MainMoves(s);
    }
  }

  lemma MainMoves(s: ChainState)
    requires ChainOk(s) && Usable(s) && s.stage < |s.pools| && RoomBelow(s, s.stage)
    requires s.pools[s.stage].owner.Open?
    requires Flushing(s, s.stage) ==> s.pools[s.stage].calls[s.linked[s.stage]].caller.Returned?
    ensures !Blocked(s)
  {
    var p := s.pools[s.stage];
    assert StageOk(s, s.stage);
    ReachableInv(p);
    if s.fed < |s.sources| {
      if |p.queue| < p.cap {
        assert CanMove(s, Feed);
      } else {
        assert WorkerOk(p, 0);
        WorkerMoves(p, 0);
        assert CanMove(s, InPool(s.stage, NextOf(p.workers[0].phase, 0)));
      }
    } else if s.kinds[s.stage].Accumulate? && !Flushing(s, s.stage) {
      assert CanMove(s, ByMain(StartCall(true, Collect)));
    } else {
      assert Enabled(p, Close);
      assert CanMove(s, ByMain(Close));
    }
  }

  // Deadlock freedom: as long as the last stage has not been joined, something can move, unless the
  // shutdown of the current stage cannot get through.
  lemma ChainMoves(s: ChainState)
    requires ChainOk(s) && Usable(s) && Unclogged(s) && !Finale(s)
    ensures !Blocked(s)
  {
    if Joined(s.pools[s.stage]) {
      assert CanMove(s, NextStage);
    } else if Blocked(s) {
      if s.stage + 1 < |s.pools| {
        DrainedBelow(s, s.stage + 1);
        assert StageOk(s, s.stage + 1);
      }
      StageMoves(s);
    }
  }

  // From the start, every run is bounded; and a run that cannot go on has come to the end, if every
  // stage has room for its stop tokens.
  lemma ChainCompletes(s: ChainState, moves: seq<Move>)
    requires Start(s) && CanMoveAll(s, moves)
    ensures |moves| <= ChainMeasure(s)
    ensures Finale(DoAll(s, moves)) ==> Blocked(DoAll(s, moves)) && WorkersIdle(DoAll(s, moves))
    ensures Roomy(s) && Blocked(DoAll(s, moves)) ==> Finale(DoAll(s, moves))
  {
    StartOk(s);
    ChainOkAlong(s, moves);
    ChainRunsAreFinite(s, moves);
    var t := DoAll(s, moves);
    if Finale(t) {
      FinaleIdle(t);
    } else if Roomy(s) {
      SizesAlong(s, moves);
      RoomyUnclogged(t);
      ChainMoves(t);
    }
  }

  ghost predicate WorkersIdle(s: ChainState) {
    forall k, w :: 0 <= k < |s.pools| && 0 <= w < |s.pools[k].workers| ==> s.pools[k].workers[w].phase.Exited?
  }

  lemma FinaleIdle(s: ChainState)
    requires ChainOk(s) && Finale(s)
    ensures WorkersIdle(s) && Blocked(s)
  {
    forall k | 0 <= k < |s.pools|
      ensures forall w :: 0 <= w < |s.pools[k].workers| ==> s.pools[k].workers[w].phase.Exited?
    {
      assert StageOk(s, k);
      ReachableGone(s.pools[k]);
    }
  }

  // Backpressure over the whole chain: what all stages have accepted and not finished is bounded
  // by the sum of their queue sizes and thread counts.
  function Bounds(s: ChainState): seq<nat> {
    seq(|s.pools|, k requires 0 <= k < |s.pools| => s.pools[k].cap + s.pools[k].tasks)
  }

  ghost function InFlight(s: ChainState): seq<nat> {
    seq(|s.pools|, k requires 0 <= k < |s.pools| => |Unfinished(s.pools[k])|)
  }

  lemma {:induction false} SumMonotone(xs: seq<nat>, ys: seq<nat>)
    requires |xs| == |ys| && forall i :: 0 <= i < |xs| ==> xs[i] <= ys[i]
    ensures Sum(xs) <= Sum(ys)
  {
    if xs != [] {
      SumMonotone(xs[1..], ys[1..]);
    }
  }

  lemma ChainBackpressure(s: ChainState, moves: seq<Move>)
    requires Start(s) && CanMoveAll(s, moves)
    ensures Sum(InFlight(DoAll(s, moves))) <= Sum(Bounds(DoAll(s, moves)))
  {
    var t := DoAll(s, moves);
    StartOk(s);
    ChainOkAlong(s, moves);
    forall k | 0 <= k < |t.pools| ensures InFlight(t)[k] <= Bounds(t)[k] {
      assert StageOk(t, k);
      Backpressure(t.pools[k]);
    }
    SumMonotone(InFlight(t), Bounds(t));
  }
}
