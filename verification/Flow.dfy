// The main function of the examples: link each stage to the next, submit every source to the first
// stage, then flush, shut down and join the stages in order, and read the output back.
module Flow {

  import opened Pool
  import opened PoolPlay
  import opened Chain
  import opened ChainProgress
  import opened ChainConservation
  import opened ChainCapacity
  import opened ChainLinks
  import opened ChainPlay
  import opened LinkPlay

  // The state reached from `start`, with the moves that led to it.
  ghost predicate Traced(start: ChainState, moves: seq<Move>, s: ChainState) {
    CanMoveAll(start, moves) && DoAll(start, moves) == s
  }

  // The links, and with them the start of the work.

  // set_next for stage k, while the workers of all stages go on as the schedule says.
  method SetNext(pools: seq<State>, ghost sizes: seq<Size>, k: nat, tasks: nat, schedule: seq<Move>)
    returns (pools': seq<State>, rest: seq<Move>, done: bool)
    requires LinkPlace(pools, sizes, k) && k + 1 < |pools| && tasks == sizes[k].tasks && pools[k].calls == []
    ensures done ==> LinkPlace(pools', sizes, k + 1)
    ensures LinkPlace(pools', sizes, k) && (done <==> PoolRest(pools'[k], k) == []) && (!done ==> rest == [])
    ensures LinkedBy(pools', LinkRest(pools', k), rest) == LinkedBy(pools, LinkRest(pools, k), schedule)
  {
    var program := CallProgram(false, Link(k), tasks, 0);
    var i := 0;
    pools', rest := pools, schedule;
    SizesOf(pools[k], sizes[k], k);
    hide Apply, Enabled, PoolRest, CallProgram, LinkRest, LinkPlace, LinkedBy;
    assert program == PoolRest(pools[k], k) by {
      FreshRest(pools[k], k);
    }
    PlaceSizes(pools, sizes, k);
    while i < |program| && rest != []
      invariant 0 <= i <= |program| && |pools'| == |pools| == |sizes|
      invariant LinkPlace(pools', sizes, k) && program[i..] == PoolRest(pools'[k], k)
      invariant LinkedBy(pools', LinkRest(pools', k), rest) == LinkedBy(pools, LinkRest(pools, k), schedule)
      decreases |rest|
    {
      MainWhileLinking(pools', sizes, k);
      LinkedTurn(pools', LinkRest(pools', k), rest);
      var m := rest[0];
      if m.InPool? {
        if m.k < |pools'| && m.st.ByWorker() && Enabled(pools'[m.k], m.st) {
          WorkerWhileLinking(pools', sizes, k, LinkStep(m.k, m.st));
          pools' := pools'[m.k := Apply(pools'[m.k], m.st)];
        }
      } else if Enabled(pools'[k], program[i]) {
        pools', i := pools'[k := Apply(pools'[k], program[i])], i + 1;
      }
      rest := rest[1..];
    }
    done := i == |program|;
    if done {
      NextLink(pools', sizes, k);
    }
  }

  lemma FreshRest(p: State, k: nat)
    requires p.calls == []
    ensures PoolRest(p, k) == CallProgram(false, Link(k), p.tasks, 0)
  {
  }

  // The chain as main leaves it when the stages are linked.
  function LinkedChain(kinds: seq<Kind>, sizes: seq<Size>, sources: seq<int>, pools: seq<State>): ChainState {
    NewChain(kinds, sizes, sources).(pools := pools, linked := seq(|sizes|, j => if j < |sizes| - 1 then 1 else 0))
  }

  function Links(kinds: seq<Kind>, sizes: seq<Size>, sources: seq<int>, schedule: seq<Move>): LinkState {
    LinkedBy(NewChain(kinds, sizes, sources).pools, LinkProgram(sizes, 0), schedule)
  }

  lemma LinkedStart(kinds: seq<Kind>, sizes: seq<Size>, sources: seq<int>, pools: seq<State>)
    requires |kinds| == |sizes| > 0 && LinkPlace(pools, sizes, |sizes| - 1)
    ensures var start := LinkedChain(kinds, sizes, sources, pools);
      Start(start) && LinksSet(start) && Shaped(start, kinds, sizes, sources)
  {
    var start := LinkedChain(kinds, sizes, sources, pools);
    forall k | 0 <= k < |pools| ensures Unused(pools[k]) && |pools[k].calls| == start.linked[k] {
      assert Linking(pools[k], sizes[k], k);
    }
  }

  // The new pools with each stage but the last linked to the next.
  method LinkStages(kinds: seq<Kind>, sizes: seq<Size>, sources: seq<int>, schedule: seq<Move>)
    returns (start: ChainState, rest: seq<Move>, done: bool)
    requires |kinds| == |sizes| > 0
    ensures var l := Links(kinds, sizes, sources, schedule);
      && start == LinkedChain(kinds, sizes, sources, l.pools) && (done <==> l.program == []) && (done ==> l.schedule == rest)
      && (!done ==> l.schedule == [])
    ensures done ==> Start(start) && LinksSet(start) && Shaped(start, kinds, sizes, sources)
    ensures !done && (forall k :: 0 <= k < |sizes| ==> sizes[k].cap >= 1 && sizes[k].tasks >= 1) ==>
      var l := Links(kinds, sizes, sources, schedule);
      CanStep(l.pools, l.program[0]) || exists x: LinkStep :: x.st.ByWorker() && CanStep(l.pools, x)
  {
    var pools := NewChain(kinds, sizes, sources).pools;
    rest, done := schedule, true;
    NewRest(kinds, sizes, sources, 0);
    NewPlace(kinds, sizes, sources);
    var k := 0;
    hide Linking, LinkRest, LinkProgram;
    while k < |sizes| - 1
      invariant 0 <= k <= |sizes| - 1 && LinkPlace(pools, sizes, k)
      invariant forall j :: k <= j < |pools| ==> pools[j].calls == []
      invariant LinkedBy(pools, LinkRest(pools, k), rest) == Links(kinds, sizes, sources, schedule)
    {
      var before := pools;
      pools, rest, done := SetNext(pools, sizes, k, sizes[k].tasks, rest);
      if !done {
        start := LinkedChain(kinds, sizes, sources, pools);
        MainWhileLinking(pools, sizes, k);
        if sizes[k].cap >= 1 && sizes[k].tasks >= 1 {
          MovesWhileLinking(pools, sizes, k);
        }
        return;
      }
      NextLink(pools, sizes, k);
      k := k + 1;
    }
    assert LinkRest(pools, k) == [] by {
      LastRest(pools, k);
    }
    start, done := LinkedChain(kinds, sizes, sources, pools), true;
    LinkedStart(kinds, sizes, sources, pools);
  }

  lemma LastRest(pools: seq<State>, k: nat)
    requires k + 1 >= |pools|
    ensures LinkRest(pools, k) == []
  {
  }

  lemma MovesWhileLinking(pools: seq<State>, sizes: seq<Size>, k: nat)
    requires LinkPlace(pools, sizes, k) && k + 1 < |pools| && PoolRest(pools[k], k) != []
    requires sizes[k].cap >= 1 && sizes[k].tasks >= 1
    ensures LinkRest(pools, k) != []
    ensures CanStep(pools, LinkRest(pools, k)[0]) || exists x: LinkStep :: x.st.ByWorker() && CanStep(pools, x)
  {
    SizesOf(pools[k], sizes[k], k);
    MainWhileLinking(pools, sizes, k);
    LinkMoves(pools[k], sizes[k], k);
    if !Enabled(pools[k], PoolRest(pools[k], k)[0]) {
      var st: Step :| st.ByWorker() && Enabled(pools[k], st);
      assert CanStep(pools, LinkStep(k, st));
    }
  }

  // The work

  // A move changes the stage and the number of sources fed only in the obvious way.
  lemma MoveOutside(s: ChainState, m: Move)
    requires CanMove(s, m)
    ensures var t := Do(s, m);
      && |t.pools| == |s.pools| && t.kinds == s.kinds && t.sources == s.sources && t.linked == s.linked
      && t.stage == (if m.NextStage? then s.stage + 1 else s.stage)
      && t.fed == (if m.Feed? then s.fed + 1 else s.fed)
  {
  }

  ghost predicate SameShape(s: ChainState, t: ChainState) {
    |t.pools| == |s.pools| && t.kinds == s.kinds && t.sources == s.sources && t.linked == s.linked
  }

  // A blocking call of the main thread, which is to make its move m; the tail is what comes after it.
  method Perform(s: ChainState, m: Move, ghost tail: seq<Move>, schedule: seq<Move>)
    returns (t: ChainState, rest: seq<Move>, done: bool)
    requires !m.InPool?
    ensures Played(t, if done then tail else [m] + tail, rest) == Played(s, [m] + tail, schedule)
    ensures SameShape(s, t)
    ensures t.stage == (if done && m.NextStage? then s.stage + 1 else s.stage)
    ensures t.fed == (if done && m.Feed? then s.fed + 1 else s.fed)
    ensures !done ==> rest == []
  {
    t, rest := s, schedule;
    done := false;
    while !done && rest != []
      invariant Played(t, if done then tail else [m] + tail, rest) == Played(s, [m] + tail, schedule)
      invariant SameShape(s, t)
      invariant t.stage == (if done && m.NextStage? then s.stage + 1 else s.stage)
      invariant t.fed == (if done && m.Feed? then s.fed + 1 else s.fed)
      decreases |rest|
    {
      assert ([m] + tail)[1..] == tail;
      var next := if rest[0].InPool? then rest[0] else m;
      if CanMove(t, next) {
        MoveOutside(t, next);
        t, done := Do(t, next), !rest[0].InPool?;
      }
      rest := rest[1..];
    }
  }

  // A program goes on to the next stage at its end, and only there.
  predicate EndsStage(program: seq<Move>) {
    program != [] && program[|program| - 1].NextStage?
    && forall i :: 0 <= i < |program| - 1 ==> program[i].ByMain?
  }

  lemma {:induction false} RepeatedByMain(st: Step, n: nat, program: seq<Move>)
    requires EndsStage(program)
    ensures EndsStage(Times(ByMain(st), n) + program)
  {
    if n > 0 {
      RepeatedByMain(st, n - 1, program);
      assert Times(ByMain(st), n) + program == [ByMain(st)] + (Times(ByMain(st), n - 1) + program);
    } else {
      assert Times(ByMain(st), 0) + program == program;
    }
  }

  lemma StageProgramEnds(kind: Kind, mutexed: bool, tasks: nat, c: nat)
    ensures EndsStage(StageProgram(kind, mutexed, tasks, c))
  {
    hide Times;
    RepeatedByMain(JoinOne, tasks, [NextStage]);
    RepeatedByMain(SendToken, tasks, [ByMain(BeginJoin)] + JoinTail(tasks));
    RepeatedByMain(SendTicket(c), tasks, [ByMain(CallerArrive(c)), ByMain(CallerReturn(c))] + ShutdownMoves(tasks));
  }

  method RunStage(s: ChainState, program: seq<Move>, ghost tail: seq<Move>, schedule: seq<Move>)
    returns (t: ChainState, rest: seq<Move>, done: bool, ghost left: seq<Move>)
    requires EndsStage(program)
    ensures Played(t, left, rest) == Played(s, program + tail, schedule) && SameShape(s, t)
    ensures if done then left == tail else left != [] && rest == []
    ensures t.stage == if done then s.stage + 1 else s.stage
  {
    t, rest, done := s, schedule, true;
    left := program + tail;
    var i := 0;
    while i < |program| && done
      invariant 0 <= i <= |program| && SameShape(s, t)
      invariant Played(t, left, rest) == Played(s, program + tail, schedule)
      invariant if done then left == program[i..] + tail else left != [] && rest == []
      invariant t.stage == s.stage + if done && i == |program| then 1 else 0
    {
      ghost var after := program[i + 1..] + tail;
      assert left == [program[i]] + after;
      t, rest, done := Perform(t, program[i], after, rest);
      left := if done then after else [program[i]] + after;
      i := i + 1;
    }
  }

  // What main has done when the schedule is used up, or it is at its end.
  function Work(start: ChainState, mutexed: bool, schedule: seq<Move>): Play
    requires |start.kinds| == |start.pools| == |start.linked|
  {
    Played(start, MainProgram(start, mutexed), schedule)
  }

  lemma FeedProgram(s: ChainState, mutexed: bool, n: nat)
    requires |s.kinds| == |s.pools| == |s.linked| && n > 0
    ensures Times(Feed, n) + StagePrograms(s, mutexed, 0) == [Feed] + (Times(Feed, n - 1) + StagePrograms(s, mutexed, 0))
  {
  }

  // Submits every source to the first stage.
  method FeedAll(start: ChainState, ghost mutexed: bool, schedule: seq<Move>)
    returns (s: ChainState, sourceSet: set<int>, rest: seq<Move>, done: bool, ghost program: seq<Move>)
    requires |start.kinds| == |start.pools| == |start.linked|
    ensures SameShape(start, s) && Played(s, program, rest) == Work(start, mutexed, schedule)
    ensures if done then program == StagePrograms(start, mutexed, 0) else program != [] && rest == []
    ensures done ==> sourceSet == Values(start.sources)
  {
    hide CanMove, Do, Played, StagePrograms;
    s, sourceSet, rest, done := start, {}, schedule, true;
    program := MainProgram(start, mutexed);
    var i := 0;
    while i < |start.sources|
      invariant 0 <= i <= |start.sources| && SameShape(start, s) && done
      invariant program == Times(Feed, |start.sources| - i) + StagePrograms(start, mutexed, 0)
      invariant Played(s, program, rest) == Work(start, mutexed, schedule)
      invariant sourceSet == Values(start.sources[..i])
    {
      sourceSet := sourceSet + {start.sources[i]};
      assert start.sources[..i + 1] == start.sources[..i] + [start.sources[i]];
      ghost var tail := Times(Feed, |start.sources| - i - 1) + StagePrograms(start, mutexed, 0);
      FeedProgram(start, mutexed, |start.sources| - i);
      s, rest, done := Perform(s, Feed, tail, rest);
      if !done {
        return;
      }
      program := tail;
      i := i + 1;
    }
    assert start.sources[..i] == start.sources;
    assert program == StagePrograms(start, mutexed, 0);
  }

  // Flushes, shuts down and joins the stages in order.
  method RunStages(start: ChainState, s0: ChainState, mutexed: bool, schedule: seq<Move>)
    returns (s: ChainState, rest: seq<Move>, done: bool, ghost program: seq<Move>)
    requires |start.kinds| == |start.pools| == |start.linked| && SameShape(start, s0)
    ensures SameShape(start, s)
    ensures Played(s, program, rest) == Played(s0, StagePrograms(start, mutexed, 0), schedule)
    ensures if done then program == [] else program != [] && rest == []
  {
    hide CanMove, Do, Played, StageProgram;
    s, rest, done, program := s0, schedule, true, StagePrograms(start, mutexed, 0);
    var k := 0;
    while k < |start.pools|
      invariant 0 <= k <= |start.pools| && SameShape(start, s) && done
      invariant program == StagePrograms(start, mutexed, k)
      invariant Played(s, program, rest) == Played(s0, StagePrograms(start, mutexed, 0), schedule)
    {
      var tasks, c := start.pools[k].tasks, start.linked[k];
      StageProgramEnds(start.kinds[k], mutexed, tasks, c);
      s, rest, done, program :=
        RunStage(s, StageProgram(start.kinds[k], mutexed, tasks, c), StagePrograms(start, mutexed, k + 1), rest);
      if !done {
        return;
      }
      k := k + 1;
    }
  }

  // The rest of main, with the links in place.
  method RunLinked(start: ChainState, mutexed: bool, schedule: seq<Move>)
    returns (sourceSet: set<int>, resultSet: set<int>, done: bool, ghost end: ChainState)
    requires |start.kinds| == |start.pools| == |start.linked|
    ensures var w := Work(start, mutexed, schedule); end == w.s && (done <==> w.program == []) && (!done ==> w.schedule == [])
    ensures done ==> sourceSet == Values(start.sources) && resultSet == Gathered(end.output)
  {
    hide CanMove, Do, Played, StagePrograms, MainProgram, SameShape;
    var s, rest;
    ghost var program;
    resultSet := {};
    s, sourceSet, rest, done, program := FeedAll(start, mutexed, schedule);
    if done {
      s, rest, done, program := RunStages(start, s, mutexed, rest);
    }
    end := s;
    if done {
      AtEndPlay(s, rest);
      resultSet := Gathered(s.output);
    } else {
      UsedUpPlay(s, program);
    }
  }

  lemma UsedUpPlay(s: ChainState, program: seq<Move>)
    ensures Played(s, program, []) == Play(s, program, [])
  {
  }

  lemma AtEndPlay(s: ChainState, schedule: seq<Move>)
    ensures Played(s, [], schedule) == Play(s, [], schedule)
  {
  }

  // What main has done is a run of the chain; at its end the chain is at its end and has delivered; and
  // before, its next move or a worker's is possible, given room for the stop tokens.
  lemma WorkIsRun(start: ChainState, mutexed: bool, schedule: seq<Move>) returns (moves: seq<Move>)
    requires Start(start)
    ensures var w := Work(start, mutexed, schedule);
      && Traced(start, moves, w.s) && (w.program == [] <==> Finale(w.s))
      && (w.program == [] ==> Gathered(w.s.output) == Values(start.sources))
      && (w.program != [] && Roomy(start) ==> CanMove(w.s, w.program[0]) || exists k, st :: CanMove(w.s, InPool(k, st)))
  {
    var w := Work(start, mutexed, schedule);
    StartOk(start);
    StartRest(start, mutexed);
    moves := StaysOnTrack(start, mutexed, schedule);
    SizesAlong(start, moves);
    hide CanMove, Do, CanMoveAll, DoAll, StageOk, Rest, Played;
    if Finale(w.s) {
      FinaleRest(w.s, mutexed);
      ChainDelivers(start, moves);
    } else {
      RestLeft(w.s, mutexed);
      if Roomy(start) {
        RoomyMoves(w.s, mutexed);
      }
    }
  }

  // main of the examples. It is the program above, whatever the schedule. When it is at its end, the set
  // it reads back is the set of the sources it submitted. When the schedule ends before, its next step or
  // a worker's is possible: while it links the stages, and afterwards if every stage has room for its
  // stop tokens.
  method RunExample(kinds: seq<Kind>, sizes: seq<Size>, sources: seq<int>, mutexed: bool, schedule: seq<Move>)
    returns (sourceSet: set<int>, resultSet: set<int>, linked: bool, done: bool,
             ghost start: ChainState, ghost moves: seq<Move>, ghost end: ChainState)
    requires |kinds| == |sizes| > 0
    ensures linked ==> Start(start) && LinksSet(start) && Shaped(start, kinds, sizes, sources)
    ensures done <==> ExampleDone(kinds, sizes, sources, mutexed, schedule)
    ensures done ==> linked && sourceSet == Values(sources) && resultSet == sourceSet
    ensures var l := Links(kinds, sizes, sources, schedule);
      && start == LinkedChain(kinds, sizes, sources, l.pools) && (linked <==> l.program == [])
      && (linked ==> end == Work(start, mutexed, l.schedule).s)
      && (!linked && (forall k :: 0 <= k < |sizes| ==> sizes[k].cap >= 1 && sizes[k].tasks >= 1) ==>
            CanStep(l.pools, l.program[0]) || exists x: LinkStep :: x.st.ByWorker() && CanStep(l.pools, x))
    ensures linked ==> Traced(start, moves, end) && (done <==> Finale(end))
    ensures linked && !done && Roomy(start) ==>
      var program := Work(start, mutexed, Links(kinds, sizes, sources, schedule).schedule).program;
      program != [] && (CanMove(end, program[0]) || exists k, st :: CanMove(end, InPool(k, st)))
  {
    sourceSet, resultSet, done := {}, {}, false;
    var s, rest;
    s, rest, linked := LinkStages(kinds, sizes, sources, schedule);
    start, moves, end := s, [], s;
    if linked {
      sourceSet, resultSet, done, end := RunLinked(s, mutexed, rest);
      moves := WorkIsRun(s, mutexed, rest);
    }
  }

  predicate ExampleDone(kinds: seq<Kind>, sizes: seq<Size>, sources: seq<int>, mutexed: bool, schedule: seq<Move>)
    requires |kinds| == |sizes| > 0
  {
    var l := Links(kinds, sizes, sources, schedule);
    l.program == [] && |l.pools| == |sizes|
    && Work(LinkedChain(kinds, sizes, sources, l.pools), mutexed, l.schedule).program == []
  }

  // main gets to its end for some schedule, whatever the stages and the sources, if every stage has room
  // for its stop tokens.
  lemma ExampleGetsThrough(kinds: seq<Kind>, sizes: seq<Size>, sources: seq<int>, mutexed: bool) returns (schedule: seq<Move>)
    requires |kinds| == |sizes| > 0 && forall k :: 0 <= k < |sizes| ==> sizes[k].cap >= sizes[k].tasks >= 1
    ensures ExampleDone(kinds, sizes, sources, mutexed, schedule)
  {
    var pools := NewChain(kinds, sizes, sources).pools;
    NewRest(kinds, sizes, sources, 0);
    NewPlace(kinds, sizes, sources);
    var first := AllGetLinked(pools, sizes, 0);
    var l := Links(kinds, sizes, sources, first);
    var start := LinkedChain(kinds, sizes, sources, l.pools);
    LinkedStart(kinds, sizes, sources, l.pools);
    StartOk(start);
    StartRest(start, mutexed);
    assert Roomy(start);
    var rest := MainGetsThrough(start, mutexed);
    LinkedMore(pools, LinkProgram(sizes, 0), first, rest);
    schedule := first + rest;
    assert LinkedBy(l.pools, [], rest) == LinkState(l.pools, [], rest);
  }
}
