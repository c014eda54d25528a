// The link from each stage to the next, set by set_thread_local (set_next in the examples), is in place
// whenever a worker hands something on.
module ChainLinks {

  import opened Wrappers
  import opened Pool
  import opened PoolInvariant
  import opened PoolCalls
  import opened Chain

  // NEXT_THREAD_POOL of stage k holds stage k + 1.
  function Link(k: nat): Body {
    SetSlot(k + 1)
  }

  // The one call made beforehand on each stage but the last has set the link; a later one collects.
  ghost predicate LinksSet(s: ChainState) {
    |s.linked| == |s.pools| && forall k :: 0 <= k < |s.pools| - 1 ==>
      && s.linked[k] == 1 <= |s.pools[k].calls| && s.pools[k].calls[0].body == Link(k)
      && forall c :: 1 <= c < |s.pools[k].calls| ==> s.pools[k].calls[c].body.Collect?
  }

  // A step leaves the functions of the calls alone, and may begin one more.
  lemma BodiesSame(p: State, st: Step)
    requires Enabled(p, st)
    ensures var t := Apply(p, st);
      && |t.calls| == |p.calls| + (if st.StartCall? then 1 else 0)
      && (forall c :: 0 <= c < |p.calls| ==> t.calls[c].body == p.calls[c].body)
      && (st.StartCall? ==> t.calls[|p.calls|].body == st.body)
  {
  }

  lemma PoolStepLinks(s: ChainState, k: nat, st: Step)
    requires LinksSet(s) && k < |s.pools| && Enabled(s.pools[k], st) && (st.StartCall? ==> st.body.Collect?)
    ensures LinksSet(PoolStep(s, k, st))
  {
    BodiesSame(s.pools[k], st);
    hide Apply, Enabled;
  }

  lemma LinksKept(s: ChainState, m: Move)
    requires LinksSet(s) && CanMove(s, m)
    ensures LinksSet(Do(s, m))
  {
    hide Apply, Enabled;
    match m
    case Feed => PoolStepLinks(s, 0, Handed({s.sources[s.fed]}));
    case InPool(k, st) =>
      PoolStepLinks(s, k, st);
      var e := Emission(s.kinds[k], s.pools[k], st);
      if e.Some? && k + 1 < |s.pools| {
        PoolStepLinks(PoolStep(s, k, st), k + 1, Handed(e.value));
      }
    case ByMain(st) => PoolStepLinks(s, s.stage, st);
    case NextStage =>
  }

  lemma {:induction false} LinksAlong(s: ChainState, moves: seq<Move>)
    requires LinksSet(s) && CanMoveAll(s, moves)
    ensures LinksSet(DoAll(s, moves))
    decreases |moves|
  {
    hide Do, CanMove, LinksSet;
    if moves != [] {
      LinksKept(s, moves[0]);
      LinksAlong(Do(s, moves[0]), moves[1..]);
    }
  }

  // At every moment of every run each worker of a stage finds the link to the next stage, whichever
  // commands it has run.
  lemma LinkInPlace(s: ChainState, moves: seq<Move>, k: nat, w: nat)
    requires Start(s) && LinksSet(s) && CanMoveAll(s, moves)
    requires k + 1 < |DoAll(s, moves).pools| && w < |DoAll(s, moves).pools[k].workers|
    ensures Slot(DoAll(s, moves).pools[k], DoAll(s, moves).pools[k].workers[w].log) == Some(k + 1)
  {
    StartOk(s);
    ChainOkAlong(s, moves);
    LinksAlong(s, moves);
    var t := DoAll(s, moves);
    assert StageOk(t, k);
    assert LastSetOn(t.pools[k], 0, w);
    SetThreadLocalVisible(t.pools[k], 0, w);
  }
}
