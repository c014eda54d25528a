// Exactly which chains can never get stuck: those in which every stage has room for its stop tokens.
// In any other chain the workers may look for work only when there is some; then none of them is
// inside dequeue when its stage is stopped, all of them leave, and the tokens do not fit.
module ChainCapacity {

  import opened Wrappers
  import opened Pool
  import opened PoolInvariant
  import opened PoolShutdown
  import opened Chain
  import opened ChainProgress

  // A worker goes to dequeue though nothing is queued.
  predicate Hasty(s: ChainState, m: Move) {
    m.InPool? && m.st.Check? && m.k < |s.pools| && !s.pools[m.k].stopped && s.pools[m.k].queue == []
  }

  // Going to dequeue over an empty queue makes nothing possible that was not possible before.
  lemma HastyCheck(p: State, w: nat, st: Step)
    requires Enabled(p, Check(w)) && !p.stopped && p.queue == []
    requires Enabled(Apply(p, Check(w)), st)
    ensures Enabled(p, st)
    ensures st.ByWorker() ==> Apply(p, Check(w)).workers[st.w] == p.workers[st.w]
    ensures Apply(p, Check(w)).accepted == p.accepted
  {
  }

  lemma HastyPool(p: State, w: nat)
    requires Enabled(p, Check(w)) && !p.stopped
    ensures var t := Apply(p, Check(w));
      t.queue == p.queue && !t.stopped && t.calls == p.calls && t.owner == p.owner && t.accepted == p.accepted
  {
  }

  lemma HastyDelivery(s: ChainState, k: nat, w: nat, j: nat, e: Option<set<int>>)
    requires k < |s.pools| && Enabled(s.pools[k], Check(w)) && !s.pools[k].stopped && s.pools[k].queue == []
    requires CanDeliver(PoolStep(s, k, Check(w)), j, e)
    ensures CanDeliver(s, j, e)
  {
    if e.Some? && j + 1 == k {
      HastyCheck(s.pools[k], w, Handed(e.value));
    }
  }

  lemma HastyMove(s: ChainState, m0: Move, m: Move)
    requires CanMove(s, m0) && Hasty(s, m0) && CanMove(Do(s, m0), m) && !Hasty(Do(s, m0), m)
    ensures CanMove(s, m) && !Hasty(s, m)
  {
    var k, w := m0.k, m0.st.w;
    var p := s.pools[k];
    HastyPool(p, w);
    match m
    case Feed =>
      if k == 0 {
        HastyCheck(p, w, Handed({s.sources[s.fed]}));
      }
    case InPool(j, st) =>
      if j == k {
        HastyCheck(p, w, st);
      }
      HastyDelivery(s, k, w, j, Emission(s.kinds[j], s.pools[j], st));
    case ByMain(st) =>
      if s.stage == k {
        HastyCheck(p, w, st);
      }
    case NextStage =>
  }

  // What can move can move without haste.
  lemma {:induction false} PatientMove(s: ChainState) returns (m: Move)
    requires ChainOk(s) && Usable(s) && Unclogged(s) && !Finale(s)
    ensures CanMove(s, m) && !Hasty(s, m)
    decreases ChainMeasure(s)
  {
    if n :| CanMove(s, n) && !Hasty(s, n) {
      m := n;
    } else {
      ChainMoves(s);
      var m0 :| CanMove(s, m0);
      var t := Do(s, m0);
      ChainOkKept(s, m0);
      SizesKept(s, m0);
      MoveCost(s, m0);
      HastyPool(s.pools[m0.k], m0.st.w);
      m := PatientMove(t);
      HastyMove(s, m0, m);
    }
  }

  // Nobody is inside dequeue, and once stopped there is a token to place for every worker.
  ghost predicate LazyPool(p: State) {
    && (forall w :: 0 <= w < |p.workers| ==> !p.workers[w].phase.Dequeuing?)
    && (p.stopped ==> Slack(p) == p.tasks)
  }

  lemma LazyPoolKept(p: State, st: Step)
    requires Inv(p) && p.mode.CompletePending? && LazyPool(p) && Enabled(p, st) && (st.Check? ==> p.stopped)
    ensures LazyPool(Apply(p, st))
  {
    var t := Apply(p, st);
    if p.stopped {
      SlackKept(p, st);
    } else if st.StoreStop? {
      assert Dequeuers(t) == {};
    }
  }

  // A worker that finds something queued takes it at once.
  lemma CheckAndTake(p: State, w: nat)
    requires Inv(p) && LazyPool(p) && Enabled(p, Check(w)) && !p.stopped && p.queue != []
    ensures Enabled(Apply(p, Check(w)), Take(w)) && LazyPool(Apply(Apply(p, Check(w)), Take(w)))
  {
  }

  ghost predicate Lazy(s: ChainState) {
    ChainOk(s) && Usable(s) && forall k :: 0 <= k < |s.pools| ==> LazyPool(s.pools[k])
  }

  lemma LazyDelivered(s: ChainState, k: nat, e: Option<set<int>>)
    requires k < |s.pools| && CanDeliver(s, k, e) && (forall j :: 0 <= j < |s.pools| ==> LazyPool(s.pools[j]))
    requires k + 1 < |s.pools| ==> Inv(s.pools[k + 1]) && s.pools[k + 1].mode.CompletePending?
    ensures forall j :: 0 <= j < |s.pools| ==> LazyPool(Deliver(s, k, e).pools[j])
    ensures |Deliver(s, k, e).pools| == |s.pools|
  {
    if e.Some? && k + 1 < |s.pools| {
      LazyPoolKept(s.pools[k + 1], Handed(e.value));
    }
  }

  lemma LazyInPool(s: ChainState, k: nat, st: Step)
    requires Lazy(s) && CanMove(s, InPool(k, st)) && (st.Check? ==> s.pools[k].stopped)
    ensures |Do(s, InPool(k, st)).pools| == |s.pools|
    ensures forall j :: 0 <= j < |s.pools| ==> LazyPool(Do(s, InPool(k, st)).pools[j])
  {
    hide Apply, Enabled, LazyPool, Inv;
    PoolInv(s, k);
    LazyPoolKept(s.pools[k], st);
    if k + 1 < |s.pools| {
      PoolInv(s, k + 1);
    }
    LazyDelivered(PoolStep(s, k, st), k, Emission(s.kinds[k], s.pools[k], st));
  }

  lemma LazyKept(s: ChainState, m: Move)
    requires Lazy(s) && CanMove(s, m) && (m.InPool? && m.st.Check? ==> s.pools[m.k].stopped)
    ensures Lazy(Do(s, m))
  {
    ChainOkKept(s, m);
    SizesKept(s, m);
    hide Apply, Enabled, LazyPool, Inv;
    match m
    case Feed =>
      PoolInv(s, 0);
      LazyPoolKept(s.pools[0], Handed({s.sources[s.fed]}));
    case InPool(k, st) =>
      LazyInPool(s, k, st);
    case ByMain(st) =>
      PoolInv(s, s.stage);
      LazyPoolKept(s.pools[s.stage], st);
    case NextStage =>
  }

  lemma PoolInv(s: ChainState, k: nat)
    requires ChainOk(s) && k < |s.pools|
    ensures Inv(s.pools[k]) && s.pools[k].mode.CompletePending?
  {
    assert StageOk(s, k);
    ReachableInv(s.pools[k]);
  }

  lemma {:induction false} DoAllAppend(s: ChainState, xs: seq<Move>, ys: seq<Move>)
    requires CanMoveAll(s, xs) && CanMoveAll(DoAll(s, xs), ys)
    ensures CanMoveAll(s, xs + ys) && DoAll(s, xs + ys) == DoAll(DoAll(s, xs), ys)
    decreases |xs|
  {
    hide CanMove, Do;
    if xs == [] {
      assert xs + ys == ys;
    } else {
      DoAllAppend(Do(s, xs[0]), xs[1..], ys);
      assert (xs + ys)[1..] == xs[1..] + ys;
    }
  }

  lemma OneMove(s: ChainState, m: Move)
    requires CanMove(s, m)
    ensures CanMoveAll(s, [m]) && DoAll(s, [m]) == Do(s, m)
  {
    assert [m][1..] == [];
    assert CanMoveAll(Do(s, m), []) && DoAll(Do(s, m), []) == Do(s, m);
  }

  // A lazy chain goes on, one move or one look and take at a time.
  lemma LazyGoesOn(s: ChainState) returns (moves: seq<Move>)
    requires Lazy(s) && Unclogged(s) && !Finale(s)
    ensures CanMoveAll(s, moves) && Lazy(DoAll(s, moves)) && ChainMeasure(DoAll(s, moves)) < ChainMeasure(s)
  {
    var m := PatientMove(s);
    MoveCost(s, m);
    OneMove(s, m);
    if m.InPool? && m.st.Check? && !s.pools[m.k].stopped {
      moves := LooksAndTakes(s, m.k, m.st.w);
    } else {
      LazyKept(s, m);
      moves := [m];
    }
  }

  lemma LooksAndTakes(s: ChainState, k: nat, w: nat) returns (moves: seq<Move>)
    requires Lazy(s) && CanMove(s, InPool(k, Check(w))) && !s.pools[k].stopped && s.pools[k].queue != []
    ensures CanMoveAll(s, moves) && Lazy(DoAll(s, moves)) && ChainMeasure(DoAll(s, moves)) < ChainMeasure(s)
  {
    var m, n := InPool(k, Check(w)), InPool(k, Take(w));
    var t := Do(s, m);
    PoolInv(s, k);
    CheckAndTake(s.pools[k], w);
    ChainOkKept(s, m);
    ChainOkKept(t, n);
    SizesKept(s, m);
    SizesKept(t, n);
    MoveCost(s, m);
    MoveCost(t, n);
    OneMove(s, m);
    OneMove(t, n);
    moves := [m] + [n];
    DoAllAppend(s, [m], [n]);
  }

  // Stage k has been stopped, and its tokens do not fit.
  ghost predicate Clogged(s: ChainState, k: nat) {
    ChainOk(s) && k < |s.pools| && s.pools[k].stopped && Slack(s.pools[k]) > s.pools[k].cap
  }

  lemma LazyFinaleRoomy(s: ChainState)
    requires Lazy(s) && Finale(s)
    ensures Roomy(s)
  {
    forall k | 0 <= k < |s.pools| ensures s.pools[k].cap >= s.pools[k].tasks {
      assert StageOk(s, k);
      ReachableShutdownOk(s.pools[k]);
      JoinedSlack(s.pools[k]);
    }
  }

  lemma {:induction false} GetsClogged(s: ChainState) returns (moves: seq<Move>, k: nat)
    requires Lazy(s) && !Roomy(s)
    ensures CanMoveAll(s, moves) && Clogged(DoAll(s, moves), k)
    decreases ChainMeasure(s)
  {
    if !Unclogged(s) {
      moves, k := [], s.stage;
    } else {
      if Finale(s) {
        LazyFinaleRoomy(s);
      }
      var first := LazyGoesOn(s);
      SizesAlong(s, first);
      var rest;
      rest, k := GetsClogged(DoAll(s, first));
      moves := first + rest;
      DoAllAppend(s, first, rest);
    }
  }

  lemma CloggedPool(s: ChainState, k: nat, j: nat, st: Step)
    requires Clogged(s, k) && j < |s.pools| && Enabled(s.pools[j], st) && ChainOk(s)
    ensures var p := PoolStep(s, j, st).pools[k]; p.stopped && Slack(p) > p.cap
  {
    if j == k {
      PoolInv(s, k);
      SlackKept(s.pools[k], st);
    }
  }

  lemma CloggedKept(s: ChainState, k: nat, m: Move)
    requires Clogged(s, k) && CanMove(s, m)
    ensures Clogged(Do(s, m), k)
  {
    ChainOkKept(s, m);
    match m
    case Feed => CloggedPool(s, k, 0, Handed({s.sources[s.fed]}));
    case InPool(j, st) =>
      CloggedPool(s, k, j, st);
      WorkerStepKeeps(s, j, st);
      var e := Emission(s.kinds[j], s.pools[j], st);
      if e.Some? && j + 1 < |s.pools| {
        CloggedPool(PoolStep(s, j, st), k, j + 1, Handed(e.value));
      }
    case ByMain(st) => CloggedPool(s, k, s.stage, st);
    case NextStage =>
  }

  lemma CloggedNoFinale(s: ChainState, k: nat)
    requires Clogged(s, k)
    ensures !Finale(s)
  {
    if Finale(s) {
      assert StageOk(s, k);
      ReachableShutdownOk(s.pools[k]);
      JoinedSlack(s.pools[k]);
    }
  }

  // From a clogged state every way leads to one that is blocked before the end.
  lemma {:induction false} ReachesBlocked(s: ChainState, k: nat) returns (moves: seq<Move>)
    requires Clogged(s, k)
    ensures CanMoveAll(s, moves) && Blocked(DoAll(s, moves)) && !Finale(DoAll(s, moves))
    decreases ChainMeasure(s)
  {
    if Blocked(s) {
      CloggedNoFinale(s, k);
      moves := [];
    } else {
      var m :| CanMove(s, m);
      CloggedKept(s, k, m);
      MoveCost(s, m);
      var rest := ReachesBlocked(Do(s, m), k);
      moves := [m] + rest;
      assert moves[1..] == rest;
    }
  }

  // Nobody is inside dequeue, as in new pools and when the workers have just left a barrier.
  ghost predicate NobodyInside(s: ChainState) {
    forall k :: 0 <= k < |s.pools| ==> Dequeuers(s.pools[k]) == {}
  }

  // From a start with nobody inside dequeue, a chain without that room can get stuck, whatever its
  // sources and kinds of stages.
  lemma ChainStuck(s: ChainState) returns (moves: seq<Move>)
    requires Start(s) && Usable(s) && NobodyInside(s) && !Roomy(s)
    ensures CanMoveAll(s, moves) && Blocked(DoAll(s, moves)) && !Finale(DoAll(s, moves))
  {
    StartOk(s);
    forall k | 0 <= k < |s.pools| ensures LazyPool(s.pools[k]) {
      PoolInv(s, k);
      forall w | 0 <= w < |s.pools[k].workers| ensures !s.pools[k].workers[w].phase.Dequeuing? {
        assert w !in Dequeuers(s.pools[k]);
      }
    }
    var first, k := GetsClogged(s);
    var rest := ReachesBlocked(DoAll(s, first), k);
    DoAllAppend(s, first, rest);
    moves := first + rest;
  }

  datatype Size = Size(cap: nat, tasks: nat)

  predicate Shaped(s: ChainState, kinds: seq<Kind>, sizes: seq<Size>, sources: seq<int>) {
    && s.kinds == kinds && s.sources == sources && |s.pools| == |sizes|
    && forall k :: 0 <= k < |sizes| ==> s.pools[k].cap == sizes[k].cap && s.pools[k].tasks == sizes[k].tasks
  }

  // New pools of these sizes.
  function NewChain(kinds: seq<Kind>, sizes: seq<Size>, sources: seq<int>): ChainState {
    ChainState(kinds, seq(|sizes|, k requires 0 <= k < |sizes| => Init(sizes[k].cap, sizes[k].tasks, CompletePending)),
               seq(|sizes|, _ => 0), sources, 0, 0, [])
  }

  lemma NewChainStart(kinds: seq<Kind>, sizes: seq<Size>, sources: seq<int>)
    requires |kinds| == |sizes| > 0
    ensures Start(NewChain(kinds, sizes, sources)) && NobodyInside(NewChain(kinds, sizes, sources))
    ensures Shaped(NewChain(kinds, sizes, sources), kinds, sizes, sources)
  {
    var s := NewChain(kinds, sizes, sources);
    forall k | 0 <= k < |sizes| ensures Unused(s.pools[k]) && Dequeuers(s.pools[k]) == {} {
      LeadsStart(s.pools[k]);
    }
  }

  // Whatever its sources and kinds of stages, a chain of these sizes can never get stuck before its end
  // if and only if every stage has room for one stop token per thread.
  lemma ChainSafeIff(kinds: seq<Kind>, sizes: seq<Size>, sources: seq<int>)
    requires |kinds| == |sizes| > 0 && forall k :: 0 <= k < |sizes| ==> sizes[k].cap >= 1 && sizes[k].tasks >= 1
    ensures
      (forall s, moves :: Start(s) && Shaped(s, kinds, sizes, sources) && CanMoveAll(s, moves) && Blocked(DoAll(s, moves)) ==>
         Finale(DoAll(s, moves)))
      <==> forall k :: 0 <= k < |sizes| ==> sizes[k].cap >= sizes[k].tasks
  {
    if forall k :: 0 <= k < |sizes| ==> sizes[k].cap >= sizes[k].tasks {
      forall s, moves | Start(s) && Shaped(s, kinds, sizes, sources) && CanMoveAll(s, moves) && Blocked(DoAll(s, moves))
        ensures Finale(DoAll(s, moves))
      {
        ChainCompletes(s, moves);
      }
    } else {
      var s := NewChain(kinds, sizes, sources);
      NewChainStart(kinds, sizes, sources);
      var moves := ChainStuck(s);
      assert CanMoveAll(s, moves);
    }
  }
}
