// A chain of thread pools: the workers of one stage submit to the next, and the main thread feeds
// the first stage and then, stage by stage, flushes, shuts down and joins.
//
// One model covers the three examples: in a Pass stage a command hands its payload on (pipeline);
// in an Accumulate stage commands collect their payloads in a thread-local set, and the function
// given to in_all_threads takes that set and hands it on (fetch and flush). What the last stage
// hands on is the output: the result file, or the set returned by fetch.
module Chain {

  import opened Wrappers
  import opened Pool
  import opened PoolShutdown

  datatype Kind = Pass | Accumulate

  datatype ChainState = ChainState(
    kinds: seq<Kind>,
    pools: seq<State>,
    linked: seq<nat>,          // the calls of set_thread_local made on each pool beforehand (set_next)
    sources: seq<int>,
    fed: nat,                  // sources submitted to the first stage
    stage: nat,                // the stage the main thread is at
    output: seq<set<int>>)

  datatype Move =
    | Feed
    | InPool(k: nat, st: Step)
    | ByMain(st: Step)
    | NextStage

  // The payload of a command; nothing for the commands of the pool itself.
  function Payload(accepted: seq<Command>, i: nat): set<int> {
    if i < |accepted| && accepted[i].Work? then accepted[i].payload else {}
  }

  // INTERMEDIATE_RESULT of a worker with this log: the payloads inserted since it was last taken.
  function Local(accepted: seq<Command>, log: seq<nat>): set<int> {
    if log == [] then {}
    else
      var i := log[|log| - 1];
      if i < |accepted| && accepted[i].InAll? then {}
      else Local(accepted, log[..|log| - 1]) + Payload(accepted, i)
  }

  // What a worker's step hands on.
  function Emission(kind: Kind, p: State, st: Step): Option<set<int>>
    requires Enabled(p, st)
  {
    if kind.Pass? && st.Finish? && p.accepted[p.workers[st.w].phase.i].Work? then
      Some(Payload(p.accepted, p.workers[st.w].phase.i))
    else if kind.Accumulate? && st.EndBody? then
      Some(Local(p.accepted, p.workers[st.w].log))
    else None
  }

  function Handed(payload: set<int>): Step {
    Submit(Work(payload, Ok))
  }

  predicate CanDeliver(s: ChainState, k: nat, e: Option<set<int>>) {
    e.Some? && k + 1 < |s.pools| ==> Enabled(s.pools[k + 1], Handed(e.value))
  }

  function PoolStep(s: ChainState, k: nat, st: Step): ChainState
    requires k < |s.pools| && Enabled(s.pools[k], st)
  {
    s.(pools := s.pools[k := Apply(s.pools[k], st)])
  }

  // Stage k hands e to the next stage, or to the output.
  function Deliver(s: ChainState, k: nat, e: Option<set<int>>): ChainState
    requires CanDeliver(s, k, e)
  {
    if e.None? then s
    else if k + 1 < |s.pools| then PoolStep(s, k + 1, Handed(e.value))
    else s.(output := s.output + [e.value])
  }

  // The main thread has called in_all_threads on stage k to collect.
  predicate Flushing(s: ChainState, k: nat) {
    k < |s.pools| == |s.linked| && |s.pools[k].calls| > s.linked[k]
  }

  predicate CanMove(s: ChainState, m: Move) {
    |s.kinds| == |s.pools| == |s.linked| &&
    match m
    case Feed => s.stage == 0 && |s.pools| > 0 && s.fed < |s.sources| && Enabled(s.pools[0], Handed({s.sources[s.fed]}))
    case InPool(k, st) =>
      && k < |s.pools| && st.ByWorker() && Enabled(s.pools[k], st)
      && CanDeliver(s, k, Emission(s.kinds[k], s.pools[k], st))
    case ByMain(st) =>
      && s.stage < |s.pools| && (s.stage == 0 ==> s.fed == |s.sources|)
      && !st.ByWorker() && !st.Submit? && Enabled(s.pools[s.stage], st)
      && (st.StartCall? ==> s.kinds[s.stage].Accumulate? && !Flushing(s, s.stage) && st.body.Collect?)
      && (st.Close? && s.kinds[s.stage].Accumulate? ==> Flushing(s, s.stage))
    case NextStage => s.stage < |s.pools| && Joined(s.pools[s.stage])
  }

  function Do(s: ChainState, m: Move): ChainState
    requires CanMove(s, m)
  {
    match m
    case Feed => PoolStep(s, 0, Handed({s.sources[s.fed]})).(fed := s.fed + 1)
    case InPool(k, st) => Deliver(PoolStep(s, k, st), k, Emission(s.kinds[k], s.pools[k], st))
    case ByMain(st) => PoolStep(s, s.stage, st)
    case NextStage => s.(stage := s.stage + 1)
  }

  // A pool in CompletePending mode to which no work has been submitted, as it is when it is new and
  // when calls of in_all_threads have returned.
  ghost predicate Unused(p: State) {
    && Reachable(p) && p.mode.CompletePending? && p.owner.Open?
    && (forall c :: 0 <= c < |p.calls| ==> p.calls[c].caller.Returned?)
    && (forall i :: 0 <= i < |p.accepted| ==> !p.accepted[i].Work?)
  }

  ghost predicate Start(s: ChainState) {
    && |s.kinds| == |s.pools| == |s.linked| > 0
    && (forall k :: 0 <= k < |s.pools| ==> Unused(s.pools[k]) && |s.pools[k].calls| == s.linked[k])
    && s.fed == 0 && s.stage == 0 && s.output == []
  }

  predicate CanMoveAll(s: ChainState, moves: seq<Move>)
    decreases |moves|
  {
    moves == [] || (CanMove(s, moves[0]) && CanMoveAll(Do(s, moves[0]), moves[1..]))
  }

  function DoAll(s: ChainState, moves: seq<Move>): ChainState
    requires CanMoveAll(s, moves)
    decreases |moves|
  {
    if moves == [] then s else DoAll(Do(s, moves[0]), moves[1..])
  }

  predicate Finale(s: ChainState) {
    s.stage == |s.pools|
  }

  // What every move keeps

  // The calls made beforehand have returned, and at most one more is made, in an accumulating stage.
  ghost predicate CallsOk(p: State, kind: Kind, linked: nat) {
    && linked <= |p.calls| <= linked + 1 && (kind.Pass? ==> |p.calls| == linked)
    && (kind.Accumulate? && !p.owner.Open? ==> |p.calls| > linked)
    && (forall c :: 0 <= c < linked ==> p.calls[c].caller.Returned?)
    && (|p.calls| > linked ==>
          forall i, t :: 0 <= i < |p.accepted| && p.accepted[i].Work? && t in p.calls[linked].tickets ==> i < t)
  }

  ghost predicate StageOk(s: ChainState, k: nat)
    requires k < |s.pools| == |s.kinds| == |s.linked|
  {
    var p := s.pools[k];
    && Reachable(p) && p.mode.CompletePending?
    && (k < s.stage ==> Joined(p))
    && (k > s.stage ==> p.owner.Open? && !Flushing(s, k))
    && CallsOk(p, s.kinds[k], s.linked[k])
  }

  ghost predicate ChainOk(s: ChainState) {
    && |s.kinds| == |s.pools| == |s.linked| > 0 && s.stage <= |s.pools| && s.fed <= |s.sources|
    && (s.stage > 0 ==> s.fed == |s.sources|)
    && (s.fed < |s.sources| ==> s.pools[0].owner.Open? && !Flushing(s, 0))
    && (forall k :: 0 <= k < |s.pools| ==> StageOk(s, k))
  }

  lemma ReachableStep(p: State, st: Step)
    requires Reachable(p) && Enabled(p, st)
    ensures Reachable(Apply(p, st))
  {
    LeadsStep(Init(p.cap, p.tasks, p.mode), p, st);
  }

  // A pool whose worker can still move has not been joined, so the next pool still takes commands.
  lemma NextStageOpen(s: ChainState, k: nat, st: Step)
    requires ChainOk(s) && k < |s.pools| && st.ByWorker() && Enabled(s.pools[k], st)
    ensures s.stage <= k
    ensures k + 1 < |s.pools| ==> s.pools[k + 1].owner.Open? && !Flushing(s, k + 1)
  {
    assert StageOk(s, k);
    ReachableShutdownOk(s.pools[k]);
    if k + 1 < |s.pools| {
      assert StageOk(s, k + 1);
    }
  }

  lemma WorkerStepKeeps(s: ChainState, k: nat, st: Step)
    requires ChainOk(s) && k < |s.pools| && st.ByWorker() && Enabled(s.pools[k], st)
    ensures ChainOk(PoolStep(s, k, st))
  {
    hide Enabled, Apply;
    var t := PoolStep(s, k, st);
    assert StageOk(s, k);
    ReachableStep(s.pools[k], st);
    WorkerStepOutside(s.pools[k], st);
    forall j | 0 <= j < |s.pools| ensures StageOk(t, j) {
      assert StageOk(s, j);
    }
  }

  // What a worker's step leaves alone.
  lemma WorkerStepOutside(p: State, st: Step)
    requires Enabled(p, st) && st.ByWorker()
    ensures var t := Apply(p, st);
      && t.cap == p.cap && t.tasks == p.tasks && t.mode == p.mode && t.owner == p.owner
      && t.accepted == p.accepted && |t.calls| == |p.calls|
      && (forall c :: 0 <= c < |p.calls| ==> t.calls[c].tickets == p.calls[c].tickets && t.calls[c].caller == p.calls[c].caller)
  {
  }

  lemma SubmitKeeps(s: ChainState, k: nat, payload: set<int>)
    requires ChainOk(s) && k < |s.pools| && !Flushing(s, k) && Enabled(s.pools[k], Handed(payload))
    ensures ChainOk(PoolStep(s, k, Handed(payload)))
  {
    var t := PoolStep(s, k, Handed(payload));
    assert StageOk(s, k);
    ReachableStep(s.pools[k], Handed(payload));
    forall j | 0 <= j < |s.pools| ensures StageOk(t, j) {
      assert StageOk(s, j);
    }
  }

  lemma MainStepKeeps(s: ChainState, st: Step)
    requires ChainOk(s) && CanMove(s, ByMain(st))
    ensures ChainOk(PoolStep(s, s.stage, st))
  {
    var t := PoolStep(s, s.stage, st);
    assert StageOk(s, s.stage);
    ReachableStep(s.pools[s.stage], st);
    assert st.SendTicket? ==> st.c == s.linked[s.stage];
    forall j | 0 <= j < |s.pools| ensures StageOk(t, j) {
      assert StageOk(s, j);
    }
  }

  lemma ChainOkKept(s: ChainState, m: Move)
    requires ChainOk(s) && CanMove(s, m)
    ensures ChainOk(Do(s, m))
  {
    match m
    case Feed =>
      assert StageOk(s, 0);
      SubmitKeeps(s, 0, {s.sources[s.fed]});
      var t := PoolStep(s, 0, Handed({s.sources[s.fed]}));
      forall j | 0 <= j < |s.pools| ensures StageOk(Do(s, m), j) {
        assert StageOk(t, j);
      }
    case InPool(k, st) =>
      NextStageOpen(s, k, st);
      WorkerStepKeeps(s, k, st);
      var t := PoolStep(s, k, st);
      var e := Emission(s.kinds[k], s.pools[k], st);
      if e.Some? {
        if k + 1 < |s.pools| {
          SubmitKeeps(t, k + 1, e.value);
        } else {
          forall j | 0 <= j < |s.pools| ensures StageOk(Do(s, m), j) {
            assert StageOk(t, j);
          }
        }
      }
    case ByMain(st) =>
      MainStepKeeps(s, st);
    case NextStage =>
      assert StageOk(s, s.stage);
      forall k | 0 <= k < |s.pools| ensures StageOk(Do(s, m), k) {
        assert StageOk(s, k);
      }
  }

  lemma StartOk(s: ChainState)
    requires Start(s)
    ensures ChainOk(s)
  {
    forall k | 0 <= k < |s.pools| ensures StageOk(s, k) {
    }
  }

  lemma {:induction false} ChainOkAlong(s: ChainState, moves: seq<Move>)
    requires ChainOk(s) && CanMoveAll(s, moves)
    ensures ChainOk(DoAll(s, moves))
    decreases |moves|
  {
    if moves != [] {
      ChainOkKept(s, moves[0]);
      ChainOkAlong(Do(s, moves[0]), moves[1..]);
    }
  }
}
