// Linking the stages before the work begins: set_thread_local on each stage but the last, as a program
// of steps of the pools. Like ChainPlay, and it gets through as well.
module LinkPlay {

  import opened Wrappers
  import opened Pool
  import opened PoolInvariant
  import opened PoolShutdown
  import opened PoolCalls
  import opened PoolPlay
  import opened Chain
  import opened ChainCapacity
  import opened ChainLinks

  // A step that main makes on the pool of stage k.
  datatype LinkStep = LinkStep(k: nat, st: Step)

  function On(k: nat, steps: seq<Step>): seq<LinkStep> {
    if steps == [] then [] else [LinkStep(k, steps[0])] + On(k, steps[1..])
  }

  // set_next for every stage from number k on that has a next one
  function LinkProgram(sizes: seq<Size>, k: nat): seq<LinkStep>
    decreases |sizes| - k
  {
    if k + 1 >= |sizes| then []
    else On(k, CallProgram(false, Link(k), sizes[k].tasks, 0)) + LinkProgram(sizes, k + 1)
  }

  datatype LinkState = LinkState(pools: seq<State>, program: seq<LinkStep>, schedule: seq<Move>)

  predicate CanStep(pools: seq<State>, x: LinkStep) {
    x.k < |pools| && Enabled(pools[x.k], x.st)
  }

  function StepOn(pools: seq<State>, x: LinkStep): seq<State>
    requires CanStep(pools, x)
  {
    pools[x.k := Apply(pools[x.k], x.st)]
  }

  // The schedule says who is next: a worker, with its step, or with any other move the main thread.
  function LinkedBy(pools: seq<State>, program: seq<LinkStep>, schedule: seq<Move>): LinkState
    decreases |schedule|
  {
    if program == [] || schedule == [] then LinkState(pools, program, schedule)
    else if schedule[0].InPool? then
      var x := LinkStep(schedule[0].k, schedule[0].st);
      LinkedBy(if x.st.ByWorker() && CanStep(pools, x) then StepOn(pools, x) else pools, program, schedule[1..])
    else if CanStep(pools, program[0]) then LinkedBy(StepOn(pools, program[0]), program[1..], schedule[1..])
    else LinkedBy(pools, program, schedule[1..])
  }

  // A turn of the schedule: a worker's, or main's.
  lemma LinkedTurn(pools: seq<State>, program: seq<LinkStep>, schedule: seq<Move>)
    requires program != [] && schedule != []
    ensures var m := schedule[0];
      LinkedBy(pools, program, schedule) ==
        if m.InPool? && m.st.ByWorker() && CanStep(pools, LinkStep(m.k, m.st)) then
          LinkedBy(StepOn(pools, LinkStep(m.k, m.st)), program, schedule[1..])
        else if !m.InPool? && CanStep(pools, program[0]) then
          LinkedBy(StepOn(pools, program[0]), program[1..], schedule[1..])
        else LinkedBy(pools, program, schedule[1..])
  {
    hide CanStep, StepOn;
  }

  lemma {:induction false} LinkedMore(pools: seq<State>, program: seq<LinkStep>, first: seq<Move>, more: seq<Move>)
    requires LinkedBy(pools, program, first).schedule == []
    ensures var l := LinkedBy(pools, program, first);
      LinkedBy(pools, program, first + more) == LinkedBy(l.pools, l.program, more)
    decreases |first|
  {
    hide CanStep, StepOn;
    if first == [] {
      assert first + more == more;
    } else if program != [] {
      assert (first + more)[1..] == first[1..] + more;
      if first[0].InPool? {
        var x := LinkStep(first[0].k, first[0].st);
        LinkedMore(if x.st.ByWorker() && CanStep(pools, x) then StepOn(pools, x) else pools, program, first[1..], more);
      } else if CanStep(pools, program[0]) {
        LinkedMore(StepOn(pools, program[0]), program[1..], first[1..], more);
      } else {
        LinkedMore(pools, program, first[1..], more);
      }
    }
  }

  // What is kept

  // A pool of this size that has no work and, once the call has begun, one call, which sets the link.
  ghost predicate Linking(p: State, size: Size, k: nat) {
    && Reachable(p) && p.cap == size.cap && p.tasks == size.tasks && p.mode.CompletePending? && p.owner.Open?
    && (forall i :: 0 <= i < |p.accepted| ==> !p.accepted[i].Work?)
    && |p.calls| <= 1 && (|p.calls| == 1 ==> p.calls[0].body == Link(k))
  }

  // What is left of the program of the pool.
  function PoolRest(p: State, k: nat): seq<Step> {
    if p.calls == [] then CallProgram(false, Link(k), p.tasks, 0) else CallRest(p, 0)
  }

  // What is left of the whole program, from stage k on.
  function LinkRest(pools: seq<State>, k: nat): seq<LinkStep>
    decreases |pools| - k
  {
    if k + 1 >= |pools| then [] else On(k, PoolRest(pools[k], k)) + LinkRest(pools, k + 1)
  }

  // Stages before number k are linked, and later ones have had no call.
  ghost predicate LinkPlace(pools: seq<State>, sizes: seq<Size>, k: nat) {
    && |pools| == |sizes|
    && (forall j :: 0 <= j < |pools| ==> Linking(pools[j], sizes[j], j))
    && (forall j :: 0 <= j < k && j + 1 < |pools| ==> CallIn(pools[j], 0, Returned))
    && (forall j :: 0 <= j < |pools| && (k < j || j + 1 == |pools|) ==> pools[j].calls == [])
  }

  lemma LinkingStep(p: State, size: Size, k: nat, st: Step)
    requires Linking(p, size, k) && Enabled(p, st)
    requires st.ByWorker() || (PoolRest(p, k) != [] && st == PoolRest(p, k)[0])
    ensures Linking(Apply(p, st), size, k)
    ensures CallIn(p, 0, Returned) ==> CallIn(Apply(p, st), 0, Returned)
    ensures PoolRest(Apply(p, st), k) == if st.ByWorker() then PoolRest(p, k) else PoolRest(p, k)[1..]
    ensures st.ByWorker() ==> |Apply(p, st).calls| == |p.calls|
    ensures !st.ByWorker() ==> |Apply(p, st).calls| == 1
  {
    LeadsStep(Init(p.cap, p.tasks, p.mode), p, st);
    if st.ByWorker() {
      WorkerStepOutside(p, st);
      if p.calls != [] {
        WorkerKeepsCallRest(p, 0, st);
      }
      BodiesSame(p, st);
    } else if p.calls == [] {
      BeginsLinking(p, k);
    } else {
      assert ByCaller(st, 0);
      CallRestStep(p, 0, st);
      BodiesSame(p, st);
    }
  }

  lemma BeginsLinking(p: State, k: nat)
    requires p.calls == [] && Enabled(p, StartCall(false, Link(k)))
    ensures var t := Apply(p, StartCall(false, Link(k)));
      && PoolRest(p, k)[0] == StartCall(false, Link(k)) && PoolRest(t, k) == PoolRest(p, k)[1..]
      && |t.calls| == 1 && t.calls[0].body == Link(k) && t.accepted == p.accepted
  {
  }

  // The rest of the whole program begins with that of the stage being linked.
  lemma {:induction false} SameLinkRest(pools: seq<State>, pools': seq<State>, k: nat)
    requires |pools| == |pools'| && forall j :: k <= j < |pools| - 1 ==> PoolRest(pools'[j], j) == PoolRest(pools[j], j)
    ensures LinkRest(pools', k) == LinkRest(pools, k)
    decreases |pools| - k
  {
    hide PoolRest;
    if k + 1 < |pools| {
      SameLinkRest(pools, pools', k + 1);
    }
  }

  lemma WorkerWhileLinking(pools: seq<State>, sizes: seq<Size>, k: nat, x: LinkStep)
    requires LinkPlace(pools, sizes, k) && x.st.ByWorker() && CanStep(pools, x)
    ensures LinkPlace(StepOn(pools, x), sizes, k) && LinkRest(StepOn(pools, x), k) == LinkRest(pools, k)
    ensures k < |pools| ==> PoolRest(StepOn(pools, x)[k], k) == PoolRest(pools[k], k)
  {
    hide Apply, Enabled, Linking, PoolRest;
    LinkingStep(pools[x.k], sizes[x.k], x.k, x.st);
    SameLinkRest(pools, StepOn(pools, x), k);
  }

  // Main's step is the first of what is left, at the stage being linked.
  lemma MainWhileLinking(pools: seq<State>, sizes: seq<Size>, k: nat)
    requires LinkPlace(pools, sizes, k) && k + 1 < |pools| && PoolRest(pools[k], k) != []
    ensures LinkRest(pools, k) != [] && LinkRest(pools, k)[0] == LinkStep(k, PoolRest(pools[k], k)[0])
    ensures CanStep(pools, LinkRest(pools, k)[0]) ==>
      var pools' := StepOn(pools, LinkRest(pools, k)[0]);
      && LinkPlace(pools', sizes, k) && LinkRest(pools', k) == LinkRest(pools, k)[1..]
      && PoolRest(pools'[k], k) == PoolRest(pools[k], k)[1..]
  {
    hide Apply, Enabled, Linking, PoolRest;
    var st := PoolRest(pools[k], k)[0];
    if Enabled(pools[k], st) {
      var pools' := StepOn(pools, LinkStep(k, st));
      if !st.ByWorker() {
        LinkingStep(pools[k], sizes[k], k, st);
      } else {
        NoWorkerSteps(pools[k], k);
      }
      SameLinkRest(pools, pools', k + 1);
      OnFront(k, PoolRest(pools[k], k), LinkRest(pools, k + 1));
    } else {
      OnFront(k, PoolRest(pools[k], k), LinkRest(pools, k + 1));
    }
  }

  lemma OnFront(k: nat, steps: seq<Step>, tail: seq<LinkStep>)
    requires steps != []
    ensures On(k, steps) + tail == [LinkStep(k, steps[0])] + (On(k, steps[1..]) + tail)
  {
  }

  lemma NoWorkerSteps(p: State, k: nat)
    requires PoolRest(p, k) != []
    ensures !PoolRest(p, k)[0].ByWorker()
  {
  }

  // A stage with nothing left is linked, and the next one is what is left to do.
  lemma NextLink(pools: seq<State>, sizes: seq<Size>, k: nat)
    requires LinkPlace(pools, sizes, k) && k + 1 < |pools| && PoolRest(pools[k], k) == []
    ensures LinkPlace(pools, sizes, k + 1) && LinkRest(pools, k) == LinkRest(pools, k + 1)
  {
    assert On(k, []) + LinkRest(pools, k + 1) == LinkRest(pools, k + 1);
  }

  lemma {:induction false} NewRest(kinds: seq<Kind>, sizes: seq<Size>, sources: seq<int>, k: nat)
    requires |kinds| == |sizes|
    ensures LinkRest(NewChain(kinds, sizes, sources).pools, k) == LinkProgram(sizes, k)
    decreases |sizes| - k
  {
    hide CallProgram;
    if k + 1 < |sizes| {
      NewRest(kinds, sizes, sources, k + 1);
    }
  }

  lemma NewPlace(kinds: seq<Kind>, sizes: seq<Size>, sources: seq<int>)
    requires |kinds| == |sizes|
    ensures LinkPlace(NewChain(kinds, sizes, sources).pools, sizes, 0)
  {
    var pools := NewChain(kinds, sizes, sources).pools;
    forall j | 0 <= j < |sizes| ensures Linking(pools[j], sizes[j], j) {
      LeadsStart(pools[j]);
    }
  }

  // Getting through

  // While a stage is being linked, main's next step is possible or a worker's of that stage is.
  lemma LinkMoves(p: State, size: Size, k: nat)
    requires Linking(p, size, k) && p.cap >= 1 && p.tasks >= 1 && PoolRest(p, k) != []
    ensures Enabled(p, PoolRest(p, k)[0]) || exists st: Step :: st.ByWorker() && Enabled(p, st)
  {
    ReachableInv(p);
    if p.calls != [] {
      OnlyCallMoves(p, 0);
      var st :| Enabled(p, st) && (st.ByWorker() || ByCaller(st, 0));
      if ByCaller(st, 0) {
        CallRestStep(p, 0, st);
      }
    }
  }

  // What the linking of a pool may still cost.
  function LinkCost(p: State): nat {
    Measure(p, 0) + if p.calls == [] then p.tasks * 7 + 3 else 0
  }

  lemma LinkCostFalls(p: State, size: Size, k: nat, st: Step)
    requires Linking(p, size, k) && Enabled(p, st)
    requires st.ByWorker() || (PoolRest(p, k) != [] && st == PoolRest(p, k)[0])
    ensures LinkCost(Apply(p, st)) < LinkCost(p)
  {
    ReachableInv(p);
    LinkingStep(p, size, k, st);
    hide Apply, Enabled, Measure, Inv, Linking;
    if st.External() {
      ExternalMeasure(p, st, 0);
    } else {
      MeasureFalls(p, st, 0);
    }
  }

  // Stage k gets linked for some schedule.
  lemma {:induction false} StageGetsLinked(pools: seq<State>, sizes: seq<Size>, k: nat) returns (schedule: seq<Move>)
    requires LinkPlace(pools, sizes, k) && k + 1 < |pools| && sizes[k].cap >= 1 && sizes[k].tasks >= 1
    ensures var l := LinkedBy(pools, LinkRest(pools, k), schedule);
      l.schedule == [] && LinkPlace(l.pools, sizes, k + 1) && l.program == LinkRest(l.pools, k + 1)
    decreases LinkCost(pools[k])
  {
    hide Apply, Enabled, Linking, PoolRest, LinkCost, LinkRest;
    var p := pools[k];
    var program := LinkRest(pools, k);
    if PoolRest(p, k) == [] {
      NextLink(pools, sizes, k);
      schedule := [];
    } else {
      assert p.cap == sizes[k].cap && p.tasks == sizes[k].tasks by {
        SizesOf(p, sizes[k], k);
      }
      LinkMoves(p, sizes[k], k);
      MainWhileLinking(pools, sizes, k);
      var first;
      if Enabled(p, PoolRest(p, k)[0]) {
        NoWorkerSteps(p, k);
        LinkCostFalls(p, sizes[k], k, PoolRest(p, k)[0]);
        first := NextStage;
        schedule := StageGetsLinked(StepOn(pools, program[0]), sizes, k);
      } else {
        var st: Step :| st.ByWorker() && Enabled(p, st);
        LinkCostFalls(p, sizes[k], k, st);
        WorkerWhileLinking(pools, sizes, k, LinkStep(k, st));
        first := InPool(k, st);
        schedule := StageGetsLinked(StepOn(pools, LinkStep(k, st)), sizes, k);
      }
      var rest := schedule;
      schedule := [first] + rest;
      assert schedule[1..] == rest;
    }
  }

  lemma SizesOf(p: State, size: Size, k: nat)
    requires Linking(p, size, k)
    ensures p.cap == size.cap && p.tasks == size.tasks
  {
  }

  // All stages get linked for some schedule.
  lemma {:induction false} AllGetLinked(pools: seq<State>, sizes: seq<Size>, k: nat) returns (schedule: seq<Move>)
    requires LinkPlace(pools, sizes, k) && k < |sizes|
    requires forall j :: 0 <= j < |sizes| ==> sizes[j].cap >= 1 && sizes[j].tasks >= 1
    ensures var l := LinkedBy(pools, LinkRest(pools, k), schedule);
      l.program == [] && l.schedule == [] && LinkPlace(l.pools, sizes, |sizes| - 1)
    decreases |pools| - k
  {
    hide LinkPlace;
    assert |pools| == |sizes| by {
      PlaceSizes(pools, sizes, k);
    }
    if k + 1 >= |pools| {
      schedule := [];
    } else {
      var first := StageGetsLinked(pools, sizes, k);
      var l := LinkedBy(pools, LinkRest(pools, k), first);
      PlaceSizes(l.pools, sizes, k + 1);
      var rest := AllGetLinked(l.pools, sizes, k + 1);
      LinkedMore(pools, LinkRest(pools, k), first, rest);
      schedule := first + rest;
    }
  }

  lemma PlaceSizes(pools: seq<State>, sizes: seq<Size>, k: nat)
    requires LinkPlace(pools, sizes, k)
    ensures |pools| == |sizes|
  {
  }
}
