// Nothing is lost or made up on the way through the chain: each value fed so far is queued, in
// execution, in a thread-local set or in the output, and in no more places than it was fed.
module ChainConservation {

  import opened Counting
  import opened Wrappers
  import opened Pool
  import opened PoolInvariant
  import opened PoolSafety
  import opened PoolShutdown
  import opened PoolErrors
  import opened Chain

  // Where the value x is, in one pool

  function Has(payload: set<int>, x: int): nat {
    if x in payload then 1 else 0
  }

  function QueuePlaces(accepted: seq<Command>, numbers: seq<nat>, x: int): seq<nat> {
    seq(|numbers|, j requires 0 <= j < |numbers| => Has(Payload(accepted, numbers[j]), x))
  }

  function WorkerPlaces(kind: Kind, accepted: seq<Command>, worker: Worker, x: int): nat {
    (if worker.phase.Executing? then Has(Payload(accepted, worker.phase.i), x) else 0)
    + (if kind.Accumulate? then Has(Local(accepted, worker.log), x) else 0)
  }

  function WorkersPlaces(kind: Kind, p: State, x: int): seq<nat> {
    seq(|p.workers|, w requires 0 <= w < |p.workers| => WorkerPlaces(kind, p.accepted, p.workers[w], x))
  }

  function PoolPlaces(kind: Kind, p: State, x: int): nat {
    Sum(QueuePlaces(p.accepted, p.queue, x)) + Sum(WorkersPlaces(kind, p, x))
  }

  // a places out of b are left after a HashSet has merged some of them.
  predicate Merged(a: nat, b: nat) {
    a <= b && (a > 0 <==> b > 0)
  }

  lemma {:induction false} LocalGrows(accepted: seq<Command>, more: seq<Command>, log: seq<nat>)
    requires Within(log, |accepted|)
    ensures Local(accepted + more, log) == Local(accepted, log)
    decreases |log|
  {
    if log != [] {
      LocalGrows(accepted, more, log[..|log| - 1]);
    }
  }

  lemma LogWithin(p: State, w: nat)
    requires Inv(p) && w < |p.workers|
    ensures Within(p.workers[w].log, |p.accepted|)
  {
    assert WorkerOk(p, w);
    assert forall j :: 0 <= j < |p.workers[w].log| ==> p.workers[w].log[j] in p.workers[w].log;
  }

  // Accepting one more command does not change what is known about the others.
  lemma EnqueuePlaces(kind: Kind, p: State, command: Command, x: int)
    requires Inv(p)
    ensures PoolPlaces(kind, Enqueue(p, command), x) == PoolPlaces(kind, p, x) + Has(Payload([command], 0), x)
  {
    var t := Enqueue(p, command);
    forall w | 0 <= w < |p.workers|
      ensures WorkerPlaces(kind, t.accepted, t.workers[w], x) == WorkerPlaces(kind, p.accepted, p.workers[w], x)
    {
      LogWithin(p, w);
      LocalGrows(p.accepted, [command], p.workers[w].log);
      assert WorkerOk(p, w);
    }
    assert WorkersPlaces(kind, t, x) == WorkersPlaces(kind, p, x);
    assert QueuePlaces(t.accepted, t.queue, x) == QueuePlaces(p.accepted, p.queue, x) + [Has(Payload([command], 0), x)];
    SumAppend(QueuePlaces(p.accepted, p.queue, x), Has(Payload([command], 0), x));
  }

  lemma SamePlaces(kind: Kind, p: State, t: State, x: int)
    requires t.accepted == p.accepted && t.queue == p.queue && t.workers == p.workers
    ensures PoolPlaces(kind, t, x) == PoolPlaces(kind, p, x)
  {
    assert WorkersPlaces(kind, t, x) == WorkersPlaces(kind, p, x);
  }

  // A step of the main thread moves no values.
  lemma MainStepPlaces(kind: Kind, p: State, st: Step, x: int)
    requires Inv(p) && Enabled(p, st) && !st.ByWorker() && !st.Submit?
    ensures PoolPlaces(kind, Apply(p, st), x) == PoolPlaces(kind, p, x)
  {
    if st.SendTicket? {
      EnqueuePlaces(kind, p, InAll(st.c), x);
      SamePlaces(kind, Enqueue(p, InAll(st.c)), Apply(p, st), x);
    } else if st.SendToken? {
      EnqueuePlaces(kind, p, Empty, x);
      SamePlaces(kind, Enqueue(p, Empty), Apply(p, st), x);
    } else {
      SamePlaces(kind, p, Apply(p, st), x);
    }
  }

  function Given(e: Option<set<int>>, x: int): nat {
    if e.Some? then Has(e.value, x) else 0
  }

  function FromQueue(p: State, st: Step, x: int): nat {
    if st.Take? && p.queue != [] then Has(Payload(p.accepted, p.queue[0]), x) else 0
  }

  // What a worker has after its step, with what it hands on, is what it had before with what it
  // took from the queue; only inserting into the thread-local set can merge.
  lemma OwnPlaces(kind: Kind, p: State, st: Step, x: int)
    requires Inv(p) && Enabled(p, st) && st.ByWorker()
    ensures var t := Apply(p, st);
      var before := WorkerPlaces(kind, p.accepted, p.workers[st.w], x) + FromQueue(p, st, x);
      var after := WorkerPlaces(kind, t.accepted, t.workers[st.w], x) + Given(Emission(kind, p, st), x);
      Merged(after, before) && (kind.Pass? ==> after == before)
  {
    assert WorkerOk(p, st.w);
    var log := p.workers[st.w].log;
    if st.Finish? || st.EndBody? {
      assert (log + [p.workers[st.w].phase.i])[..|log|] == log;
    }
  }

  lemma WorkerStepShape(p: State, st: Step)
    requires Enabled(p, st) && st.ByWorker()
    ensures var t := Apply(p, st);
      && st.w < |p.workers| == |t.workers| && t.workers == p.workers[st.w := t.workers[st.w]]
      && t.accepted == p.accepted
      && (if st.Take? then p.queue != [] && t.queue == p.queue[1..] else t.queue == p.queue)
  {
  }

  lemma QueueStepPlaces(p: State, st: Step, x: int)
    requires Enabled(p, st) && st.ByWorker()
    ensures Sum(QueuePlaces(p.accepted, p.queue, x)) ==
      Sum(QueuePlaces(Apply(p, st).accepted, Apply(p, st).queue, x)) + FromQueue(p, st, x)
  {
    WorkerStepShape(p, st);
    hide Enabled, Apply;
    var t := Apply(p, st);
    var queued := QueuePlaces(p.accepted, p.queue, x);
    if st.Take? {
      assert queued[1..] == QueuePlaces(t.accepted, t.queue, x);
    } else {
      assert queued == QueuePlaces(t.accepted, t.queue, x);
    }
  }

  lemma WorkersStepPlaces(kind: Kind, p: State, st: Step, x: int)
    requires Enabled(p, st) && st.ByWorker() && st.w < |p.workers| == |Apply(p, st).workers|
    ensures var t := Apply(p, st);
      var mine := WorkerPlaces(kind, p.accepted, p.workers[st.w], x);
      && Sum(WorkersPlaces(kind, t, x)) + mine ==
           Sum(WorkersPlaces(kind, p, x)) + WorkerPlaces(kind, t.accepted, t.workers[st.w], x)
      && mine <= Sum(WorkersPlaces(kind, p, x))
  {
    WorkerStepShape(p, st);
    hide Enabled, Apply, WorkerPlaces;
    var t := Apply(p, st);
    var own := WorkerPlaces(kind, t.accepted, t.workers[st.w], x);
    assert WorkersPlaces(kind, t, x) == WorkersPlaces(kind, p, x)[st.w := own];
    SumUpdate(WorkersPlaces(kind, p, x), st.w, own);
    SumAtLeast(WorkersPlaces(kind, p, x), st.w);
  }

  lemma WorkerStepPlaces(kind: Kind, p: State, st: Step, x: int)
    requires Inv(p) && Enabled(p, st) && st.ByWorker()
    ensures var after := PoolPlaces(kind, Apply(p, st), x) + Given(Emission(kind, p, st), x);
      Merged(after, PoolPlaces(kind, p, x)) && (kind.Pass? ==> after == PoolPlaces(kind, p, x))
  {
    WorkerStepShape(p, st);
    hide Enabled, Apply, WorkerPlaces, WorkersPlaces, QueuePlaces, Emission, Inv, FromQueue, Given;
    OwnPlaces(kind, p, st, x);
    QueueStepPlaces(p, st, x);
    WorkersStepPlaces(kind, p, st, x);
  }

  // Where the value x is, in the chain

  function PoolsPlaces(s: ChainState, x: int): seq<nat>
    requires |s.kinds| == |s.pools|
  {
    seq(|s.pools|, k requires 0 <= k < |s.pools| => PoolPlaces(s.kinds[k], s.pools[k], x))
  }

  function OutputPlaces(output: seq<set<int>>, x: int): seq<nat> {
    seq(|output|, j requires 0 <= j < |output| => Has(output[j], x))
  }

  // In how many places x is: queues, hands of workers, thread-local sets, entries of the output.
  function Places(s: ChainState, x: int): nat
    requires |s.kinds| == |s.pools|
  {
    Sum(PoolsPlaces(s, x)) + Sum(OutputPlaces(s.output, x))
  }

  // How often x has been fed.
  function TimesFed(s: ChainState, x: int): nat
    requires s.fed <= |s.sources|
  {
    multiset(s.sources[..s.fed])[x]
  }

  predicate AllPass(kinds: seq<Kind>) {
    forall k :: 0 <= k < |kinds| ==> kinds[k].Pass?
  }

  ghost predicate Conserved(s: ChainState, x: int)
    requires ChainOk(s)
  {
    Merged(Places(s, x), TimesFed(s, x)) && (AllPass(s.kinds) ==> Places(s, x) == TimesFed(s, x))
  }

  lemma PoolStepPlaces(s: ChainState, k: nat, st: Step, x: int)
    requires |s.kinds| == |s.pools| && k < |s.pools| && Enabled(s.pools[k], st)
    ensures Places(PoolStep(s, k, st), x) + PoolPlaces(s.kinds[k], s.pools[k], x) ==
      Places(s, x) + PoolPlaces(s.kinds[k], Apply(s.pools[k], st), x)
    ensures PoolPlaces(s.kinds[k], s.pools[k], x) <= Places(s, x)
  {
    var t := PoolStep(s, k, st);
    assert PoolsPlaces(t, x) == PoolsPlaces(s, x)[k := PoolPlaces(s.kinds[k], t.pools[k], x)];
    SumUpdate(PoolsPlaces(s, x), k, PoolPlaces(s.kinds[k], t.pools[k], x));
    SumAtLeast(PoolsPlaces(s, x), k);
  }

  lemma SubmitPlaces(s: ChainState, k: nat, payload: set<int>, x: int)
    requires |s.kinds| == |s.pools| && k < |s.pools| && Inv(s.pools[k]) && Enabled(s.pools[k], Handed(payload))
    ensures Places(PoolStep(s, k, Handed(payload)), x) == Places(s, x) + Has(payload, x)
  {
    PoolStepPlaces(s, k, Handed(payload), x);
    EnqueuePlaces(s.kinds[k], s.pools[k], Work(payload, Ok), x);
  }

  lemma DeliverPlaces(s: ChainState, k: nat, e: Option<set<int>>, x: int)
    requires ChainOk(s) && CanDeliver(s, k, e)
    ensures Places(Deliver(s, k, e), x) == Places(s, x) + Given(e, x)
  {
    if e.Some? {
      if k + 1 < |s.pools| {
        assert StageOk(s, k + 1);
        ReachableInv(s.pools[k + 1]);
        SubmitPlaces(s, k + 1, e.value, x);
      } else {
        assert OutputPlaces(s.output + [e.value], x) == OutputPlaces(s.output, x) + [Has(e.value, x)];
        SumAppend(OutputPlaces(s.output, x), Has(e.value, x));
        assert PoolsPlaces(Deliver(s, k, e), x) == PoolsPlaces(s, x);
      }
    }
  }

  lemma InPoolPlaces(s: ChainState, k: nat, st: Step, x: int)
    requires ChainOk(s) && CanMove(s, InPool(k, st))
    ensures |Do(s, InPool(k, st)).kinds| == |Do(s, InPool(k, st)).pools|
    ensures Merged(Places(Do(s, InPool(k, st)), x), Places(s, x))
    ensures s.kinds[k].Pass? ==> Places(Do(s, InPool(k, st)), x) == Places(s, x)
  {
    assert StageOk(s, k);
    ReachableInv(s.pools[k]);
    WorkerStepKeeps(s, k, st);
    WorkerStepPlaces(s.kinds[k], s.pools[k], st, x);
    PoolStepPlaces(s, k, st, x);
    DeliverPlaces(PoolStep(s, k, st), k, Emission(s.kinds[k], s.pools[k], st), x);
  }

  lemma FeedPlaces(s: ChainState, x: int)
    requires ChainOk(s) && CanMove(s, Feed)
    ensures Places(Do(s, Feed), x) == Places(s, x) + Has({s.sources[s.fed]}, x)
    ensures TimesFed(Do(s, Feed), x) == TimesFed(s, x) + Has({s.sources[s.fed]}, x)
  {
    assert StageOk(s, 0);
    ReachableInv(s.pools[0]);
    SubmitPlaces(s, 0, {s.sources[s.fed]}, x);
    assert PoolsPlaces(Do(s, Feed), x) == PoolsPlaces(PoolStep(s, 0, Handed({s.sources[s.fed]})), x);
    assert s.sources[..s.fed + 1] == s.sources[..s.fed] + [s.sources[s.fed]];
  }

  lemma MainPlaces(s: ChainState, st: Step, x: int)
    requires ChainOk(s) && CanMove(s, ByMain(st))
    ensures Places(Do(s, ByMain(st)), x) == Places(s, x)
  {
    assert StageOk(s, s.stage);
    ReachableInv(s.pools[s.stage]);
    MainStepPlaces(s.kinds[s.stage], s.pools[s.stage], st, x);
    PoolStepPlaces(s, s.stage, st, x);
  }

  lemma ConservedKept(s: ChainState, m: Move, x: int)
    requires ChainOk(s) && Conserved(s, x) && CanMove(s, m) && ChainOk(Do(s, m))
    ensures Conserved(Do(s, m), x)
  {
    match m
    case Feed => FeedPlaces(s, x);
    case InPool(k, st) => InPoolPlaces(s, k, st, x);
    case ByMain(st) => MainPlaces(s, st, x);
    case NextStage => assert PoolsPlaces(Do(s, m), x) == PoolsPlaces(s, x);
  }

  // Before any work has been submitted there are only barrier commands, which hold nothing.
  lemma UnusedPlaces(kind: Kind, p: State, x: int)
    requires Unused(p)
    ensures PoolPlaces(kind, p, x) == 0
  {
    ReachableInv(p);
    forall w | 0 <= w < |p.workers| ensures WorkerPlaces(kind, p.accepted, p.workers[w], x) == 0 {
      assert WorkerOk(p, w);
      var log := p.workers[w].log;
      assert log != [] ==> log[|log| - 1] in log;
    }
    SumZero(WorkersPlaces(kind, p, x));
    SumZero(QueuePlaces(p.accepted, p.queue, x));
  }

  lemma ConservedStart(s: ChainState, x: int)
    requires Start(s)
    ensures ChainOk(s) && Conserved(s, x)
  {
    StartOk(s);
    forall k | 0 <= k < |s.pools| ensures PoolPlaces(s.kinds[k], s.pools[k], x) == 0 {
      UnusedPlaces(s.kinds[k], s.pools[k], x);
    }
    SumZero(PoolsPlaces(s, x));
  }

  lemma {:induction false} ConservedAlong(s: ChainState, moves: seq<Move>, x: int)
    requires ChainOk(s) && Conserved(s, x) && CanMoveAll(s, moves)
    ensures ChainOk(DoAll(s, moves)) && Conserved(DoAll(s, moves), x)
    ensures DoAll(s, moves).sources == s.sources && DoAll(s, moves).kinds == s.kinds
    decreases |moves|
  {
    if moves != [] {
      ChainOkKept(s, moves[0]);
      ConservedKept(s, moves[0], x);
      ConservedAlong(Do(s, moves[0]), moves[1..], x);
    }
  }

  predicate AllDifferent(xs: seq<int>) {
    forall i, j :: 0 <= i < j < |xs| ==> xs[i] != xs[j]
  }

  lemma {:induction false} DifferentCounts(xs: seq<int>, x: int)
    requires AllDifferent(xs)
    ensures multiset(xs)[x] <= 1
  {
    if xs != [] {
      DifferentCounts(xs[1..], x);
      assert xs == [xs[0]] + xs[1..];
    }
  }

  // At every step of every run: each value fed is somewhere, nothing else is anywhere, and no
  // value is in more places than it was fed. With different sources, or without accumulating
  // stages, the places together hold exactly what was fed: a disjoint union.
  lemma ConservationThroughout(s: ChainState, moves: seq<Move>, x: int)
    requires Start(s) && CanMoveAll(s, moves)
    ensures ChainOk(DoAll(s, moves))
    ensures Merged(Places(DoAll(s, moves), x), TimesFed(DoAll(s, moves), x))
    ensures AllDifferent(s.sources) || AllPass(s.kinds) ==> Places(DoAll(s, moves), x) == TimesFed(DoAll(s, moves), x)
  {
    ConservedStart(s, x);
    ConservedAlong(s, moves, x);
    var t := DoAll(s, moves);
    if AllDifferent(s.sources) {
      DifferentCounts(t.sources[..t.fed], x);
    }
  }

  // The end of the chain

  // After the last take, an accumulating worker's set stays empty if no more work came.
  lemma {:induction false} LocalTaken(accepted: seq<Command>, log: seq<nat>, t: nat)
    requires Increasing(log) && t in log && t < |accepted| && accepted[t].InAll?
    requires forall i :: i in log && t < i < |accepted| ==> !accepted[i].Work?
    ensures Local(accepted, log) == {}
    decreases |log|
  {
    var i := log[|log| - 1];
    if !(i < |accepted| && accepted[i].InAll?) {
      LocalTaken(accepted, log[..|log| - 1], t);
    }
  }

  lemma JoinedWorkerEmpty(s: ChainState, k: nat, w: nat, x: int)
    requires ChainOk(s) && k < |s.pools| && Joined(s.pools[k]) && w < |s.pools[k].workers|
    ensures WorkerPlaces(s.kinds[k], s.pools[k].accepted, s.pools[k].workers[w], x) == 0
  {
    var p := s.pools[k];
    assert StageOk(s, k);
    ReachableShutdownOk(p);
    assert WorkerOk(p, w);
    if s.kinds[k].Accumulate? {
      var c := s.linked[k];
      assert CallIn(p, c, Returned);
      assert Released(p, c) && BarrierOpen(p, c);
      var t := p.calls[c].tickets[ServedIndex(p, c, w)];
      assert Finished(p, t) && ForCall(p, t, c);
      LocalTaken(p.accepted, p.workers[w].log, t);
    }
  }

  lemma JoinedPoolEmpty(s: ChainState, k: nat, x: int)
    requires ChainOk(s) && k < |s.pools| && Joined(s.pools[k])
    ensures PoolPlaces(s.kinds[k], s.pools[k], x) == 0
  {
    var p := s.pools[k];
    assert StageOk(s, k);
    CompletePendingExactlyOnce(p);
    SumZero(QueuePlaces(p.accepted, p.queue, x));
    forall w | 0 <= w < |p.workers|
      ensures WorkerPlaces(s.kinds[k], p.accepted, p.workers[w], x) == 0
    {
      JoinedWorkerEmpty(s, k, w, x);
    }
    SumZero(WorkersPlaces(s.kinds[k], p, x));
  }

  lemma FinalePlaces(s: ChainState, x: int)
    requires ChainOk(s) && Finale(s)
    ensures Places(s, x) == Sum(OutputPlaces(s.output, x))
  {
    forall k | 0 <= k < |s.pools| ensures PoolPlaces(s.kinds[k], s.pools[k], x) == 0 {
      assert StageOk(s, k);
      JoinedPoolEmpty(s, k, x);
    }
    SumZero(PoolsPlaces(s, x));
  }

  function Values(xs: seq<int>): (v: set<int>)
    ensures forall x :: x in v <==> x in xs
  {
    set x | x in xs
  }

  // What is read back from the output.
  function Gathered(output: seq<set<int>>): set<int> {
    set x, j | 0 <= j < |output| && x in output[j] :: x
  }

  lemma GatheredPlaces(output: seq<set<int>>, x: int)
    ensures x in Gathered(output) <==> Sum(OutputPlaces(output, x)) > 0
  {
    if x in Gathered(output) {
      var j :| 0 <= j < |output| && x in output[j];
      SumAtLeast(OutputPlaces(output, x), j);
    } else {
      SumZero(OutputPlaces(output, x));
    }
  }

  lemma DeliveredValue(s: ChainState, moves: seq<Move>, x: int)
    requires Start(s) && CanMoveAll(s, moves) && Finale(DoAll(s, moves))
    ensures x in Gathered(DoAll(s, moves).output) <==> x in s.sources
    ensures AllDifferent(s.sources) || AllPass(s.kinds) ==>
      Sum(OutputPlaces(DoAll(s, moves).output, x)) == multiset(s.sources)[x]
  {
    var t := DoAll(s, moves);
    ConservationThroughout(s, moves, x);
    ConservedStart(s, x);
    ConservedAlong(s, moves, x);
    FinalePlaces(t, x);
    GatheredPlaces(t.output, x);
    assert t.sources[..t.fed] == s.sources;
  }

  // The chain delivers: at the end of any run the set read back from the output is the set of the
  // sources, and with different sources, or without accumulating stages, every value came out
  // exactly as often as it is in the sources.
  lemma ChainDelivers(s: ChainState, moves: seq<Move>)
    requires Start(s) && CanMoveAll(s, moves) && Finale(DoAll(s, moves))
    ensures Gathered(DoAll(s, moves).output) == Values(s.sources)
    ensures AllDifferent(s.sources) || AllPass(s.kinds) ==>
      forall x :: Sum(OutputPlaces(DoAll(s, moves).output, x)) == multiset(s.sources)[x]
  {
    hide DoAll, CanMoveAll, Start, Finale, OutputPlaces, Gathered, Values;
    var gathered := Gathered(DoAll(s, moves).output);
    forall x ensures x in gathered <==> x in Values(s.sources) {
      DeliveredValue(s, moves, x);
    }
    assert gathered == Values(s.sources);
    if AllDifferent(s.sources) || AllPass(s.kinds) {
      forall x ensures Sum(OutputPlaces(DoAll(s, moves).output, x)) == multiset(s.sources)[x] {
        DeliveredValue(s, moves, x);
      }
    }
  }

  // In every stage, every command accepted before its shutdown was executed exactly once.
  lemma StagesExecuteOnce(s: ChainState, moves: seq<Move>, k: nat, i: nat)
    requires Start(s) && CanMoveAll(s, moves) && Finale(DoAll(s, moves)) && k < |DoAll(s, moves).pools|
    ensures i < DoAll(s, moves).pools[k].closedAt ==> |Executions(DoAll(s, moves).pools[k], i)| == 1
  {
    StartOk(s);
    ChainOkAlong(s, moves);
    assert StageOk(DoAll(s, moves), k);
    CompletePendingExactlyOnce(DoAll(s, moves).pools[k]);
  }
}
