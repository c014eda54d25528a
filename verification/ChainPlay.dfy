// What the main thread of the examples does, as a program of moves: it makes them in order, each when
// the schedule gives it a turn and the move is possible, and in between the workers of all stages move
// as the schedule says. The program is exactly what is left to do in every state, so main never waits
// for a move it could not make, and for some schedule it gets through.
module ChainPlay {

  import opened Wrappers
  import opened Pool
  import opened PoolInvariant
  import opened PoolShutdown
  import opened Chain
  import opened ChainProgress

  // The program

  function Times(m: Move, n: nat): seq<Move> {
    if n == 0 then [] else [m] + Times(m, n - 1)
  }

  function JoinTail(n: nat): seq<Move> {
    Times(ByMain(JoinOne), n) + [NextStage]
  }

  function TokenTail(n: nat, tasks: nat): seq<Move> {
    Times(ByMain(SendToken), n) + ([ByMain(BeginJoin)] + JoinTail(tasks))
  }

  // shutdown and join of a stage
  function ShutdownMoves(tasks: nat): seq<Move> {
    [ByMain(Close), ByMain(SeeEmpty), ByMain(StoreStop)] + TokenTail(tasks, tasks)
  }

  function FlushTail(n: nat, c: nat, tasks: nat): seq<Move> {
    Times(ByMain(SendTicket(c)), n) + ([ByMain(CallerArrive(c)), ByMain(CallerReturn(c))] + ShutdownMoves(tasks))
  }

  // What main does at one stage: if the stage accumulates, in_all_threads (flush) or
  // in_all_threads_mut (fetch), as call c; then shutdown and join.
  function StageProgram(kind: Kind, mutexed: bool, tasks: nat, c: nat): seq<Move> {
    if kind.Accumulate? then [ByMain(StartCall(mutexed, Collect))] + FlushTail(tasks, c, tasks) else ShutdownMoves(tasks)
  }

  // The programs of the stages from number k on.
  function StagePrograms(s: ChainState, mutexed: bool, k: nat): seq<Move>
    requires |s.kinds| == |s.pools| == |s.linked|
    decreases |s.pools| - k
  {
    if k >= |s.pools| then []
    else StageProgram(s.kinds[k], mutexed, s.pools[k].tasks, s.linked[k]) + StagePrograms(s, mutexed, k + 1)
  }

  function MainProgram(s: ChainState, mutexed: bool): seq<Move>
    requires |s.kinds| == |s.pools| == |s.linked|
  {
    Times(Feed, |s.sources|) + StagePrograms(s, mutexed, 0)
  }

  // How far main has come: the state, what is left of its program, and of the schedule.
  datatype Play = Play(s: ChainState, program: seq<Move>, schedule: seq<Move>)

  // The schedule says who is next: a worker, with its step, or with any other move the main thread.
  function Played(s: ChainState, program: seq<Move>, schedule: seq<Move>): Play
    decreases |schedule|
  {
    if program == [] || schedule == [] then Play(s, program, schedule)
    else
      var m := if schedule[0].InPool? then schedule[0] else program[0];
      if !CanMove(s, m) then Played(s, program, schedule[1..])
      else Played(Do(s, m), if schedule[0].InPool? then program else program[1..], schedule[1..])
  }

  // What is left to do

  function StageRest(p: State, kind: Kind, mutexed: bool, c: nat): seq<Move> {
    match p.owner
    case Open =>
      if kind.Pass? || |p.calls| <= c then StageProgram(kind, mutexed, p.tasks, c)
      else (match p.calls[c].caller
            case Submitting => FlushTail(if |p.calls[c].tickets| < p.tasks then p.tasks - |p.calls[c].tickets| else 0, c, p.tasks)
            case Waiting => [ByMain(CallerReturn(c))] + ShutdownMoves(p.tasks)
            case Returned => ShutdownMoves(p.tasks))
    case AwaitEmpty => [ByMain(SeeEmpty), ByMain(StoreStop)] + TokenTail(p.tasks, p.tasks)
    case Storing => [ByMain(StoreStop)] + TokenTail(p.tasks, p.tasks)
    case Sending(k) => TokenTail(if k < p.tasks then p.tasks - k else 0, p.tasks)
    case Joining(left, _) => JoinTail(left)
  }

  function Rest(s: ChainState, mutexed: bool): seq<Move>
    requires |s.kinds| == |s.pools| == |s.linked|
  {
    if s.stage >= |s.pools| then []
    else
      Times(Feed, Left(|s.sources|, s.fed))
      + (StageRest(s.pools[s.stage], s.kinds[s.stage], mutexed, s.linked[s.stage]) + StagePrograms(s, mutexed, s.stage + 1))
  }

  lemma FrontTimes(m: Move, n: nat, tail: seq<Move>)
    requires n > 0
    ensures Times(m, n) + tail == [m] + (Times(m, n - 1) + tail)
  {
  }

  // A step of main at its stage is the first of what is left to do there.
  lemma StageRestStep(p: State, kind: Kind, mutexed: bool, c: nat, st: Step)
    requires Inv(p) && p.mode.CompletePending? && CallsOk(p, kind, c)
    requires Enabled(p, st) && !st.ByWorker() && !st.Submit?
    requires st.StartCall? ==> kind.Accumulate? && |p.calls| <= c && st == StartCall(mutexed, Collect)
    requires st.Close? && kind.Accumulate? ==> |p.calls| > c
    ensures StageRest(p, kind, mutexed, c) == [ByMain(st)] + StageRest(Apply(p, st), kind, mutexed, c)
  {
    if st.StartCall? || st.SendTicket? || st.CallerArrive? || st.CallerReturn? {
      CallStepRest(p, kind, mutexed, c, st);
    } else {
      OwnerStepRest(p, kind, mutexed, c, st);
    }
  }

  lemma CallStepRest(p: State, kind: Kind, mutexed: bool, c: nat, st: Step)
    requires OwnerPlace(p) && CallsOk(p, kind, c) && Enabled(p, st)
    requires st.StartCall? || st.SendTicket? || st.CallerArrive? || st.CallerReturn?
    requires st.StartCall? ==> kind.Accumulate? && |p.calls| <= c && st == StartCall(mutexed, Collect)
    ensures StageRest(p, kind, mutexed, c) == [ByMain(st)] + StageRest(Apply(p, st), kind, mutexed, c)
  {
    hide ShutdownMoves;
    match st
    case StartCall(_, _) =>
    case SendTicket(_) => FrontTimes(ByMain(SendTicket(c)), p.tasks - |p.calls[c].tickets|,
                                     [ByMain(CallerArrive(c)), ByMain(CallerReturn(c))] + ShutdownMoves(p.tasks));
    case CallerArrive(_) =>
      assert FlushTail(0, c, p.tasks) == [ByMain(CallerArrive(c))] + ([ByMain(CallerReturn(c))] + ShutdownMoves(p.tasks));
    case CallerReturn(_) =>
  }

  lemma OwnerStepRest(p: State, kind: Kind, mutexed: bool, c: nat, st: Step)
    requires OwnerPlace(p) && p.mode.CompletePending? && CallsOk(p, kind, c) && Enabled(p, st)
    requires !st.ByWorker() && !st.External() && !st.SendTicket? && !st.CallerArrive? && !st.CallerReturn?
    requires st.Close? && kind.Accumulate? ==> |p.calls| > c
    ensures StageRest(p, kind, mutexed, c) == [ByMain(st)] + StageRest(Apply(p, st), kind, mutexed, c)
  {
    match st
    case Close =>
    case SeeEmpty =>
    case StoreStop =>
    case SendToken => FrontTimes(ByMain(SendToken), p.tasks - p.owner.tokens, [ByMain(BeginJoin)] + JoinTail(p.tasks));
    case BeginJoin =>
    case JoinOne => FrontTimes(ByMain(JoinOne), p.owner.left, [NextStage]);
  }

  // Only the sizes and kinds matter for the later stages.
  lemma {:induction false} SamePrograms(s: ChainState, t: ChainState, mutexed: bool, k: nat)
    requires |s.kinds| == |s.pools| == |s.linked| == |t.pools| && t.kinds == s.kinds && t.linked == s.linked
    requires forall j :: k <= j < |s.pools| ==> t.pools[j].tasks == s.pools[j].tasks
    ensures StagePrograms(t, mutexed, k) == StagePrograms(s, mutexed, k)
    decreases |s.pools| - k
  {
    if k < |s.pools| {
      SamePrograms(s, t, mutexed, k + 1);
    }
  }

  lemma LinkedSame(s: ChainState, m: Move)
    requires CanMove(s, m)
    ensures Do(s, m).linked == s.linked && Do(s, m).sources == s.sources
    ensures Do(s, m).fed == s.fed + (if m.Feed? then 1 else 0) && Do(s, m).stage == s.stage + (if m.NextStage? then 1 else 0)
  {
  }

  // What main does next is the first of what is left to do, and the rest is left after it.
  lemma MainStepRest(s: ChainState, mutexed: bool, m: Move)
    requires ChainOk(s) && CanMove(s, m) && !m.InPool?
    requires m.ByMain? && m.st.StartCall? ==> m.st.mutexed == mutexed
    ensures ChainOk(Do(s, m)) && Rest(s, mutexed) == [m] + Rest(Do(s, m), mutexed)
  {
    ChainOkKept(s, m);
    SizesKept(s, m);
    LinkedSame(s, m);
    hide CanMove, Do, StageOk, Rest;
    match m
    case Feed => FeedRest(s, mutexed);
    case ByMain(st) => ByMainRest(s, mutexed, st);
    case NextStage => NextStageRest(s, mutexed);
  }

  lemma ByMainRest(s: ChainState, mutexed: bool, st: Step)
    requires ChainOk(s) && CanMove(s, ByMain(st)) && (st.StartCall? ==> st.mutexed == mutexed)
    ensures |Do(s, ByMain(st)).kinds| == |Do(s, ByMain(st)).pools| == |Do(s, ByMain(st)).linked|
    ensures Rest(s, mutexed) == [ByMain(st)] + Rest(Do(s, ByMain(st)), mutexed)
  {
    hide Apply, Enabled, Inv, StageRest, StagePrograms, Rest;
    var t := Do(s, ByMain(st));
    SamePrograms(s, t, mutexed, s.stage + 1);
    assert StageOk(s, s.stage);
    ReachableInv(s.pools[s.stage]);
    StageRestStep(s.pools[s.stage], s.kinds[s.stage], mutexed, s.linked[s.stage], st);
    NothingToFeed(s, mutexed);
    NothingToFeed(t, mutexed);
  }

  // Main is past the feeding when it acts on a stage.
  lemma NothingToFeed(s: ChainState, mutexed: bool)
    requires |s.kinds| == |s.pools| == |s.linked| && s.stage < |s.pools| && s.fed >= |s.sources|
    ensures Rest(s, mutexed) ==
      StageRest(s.pools[s.stage], s.kinds[s.stage], mutexed, s.linked[s.stage]) + StagePrograms(s, mutexed, s.stage + 1)
  {
    hide StageRest, StagePrograms;
    assert Times(Feed, 0) == [];
  }

  lemma FeedRest(s: ChainState, mutexed: bool)
    requires ChainOk(s) && CanMove(s, Feed) && |Do(s, Feed).pools| == |s.pools|
    ensures |Do(s, Feed).kinds| == |Do(s, Feed).pools| == |Do(s, Feed).linked|
    ensures Rest(s, mutexed) == [Feed] + Rest(Do(s, Feed), mutexed)
  {
    var t := Do(s, Feed);
    LinkedSame(s, Feed);
    SizesKept(s, Feed);
    hide Apply, Enabled, StageRest, StageOk, StagePrograms, Times;
    SamePrograms(s, t, mutexed, 1);
    SubmitRest(s.pools[0], s.kinds[0], mutexed, s.linked[0], {s.sources[s.fed]});
    FrontTimes(Feed, |s.sources| - s.fed,
               StageRest(s.pools[0], s.kinds[0], mutexed, s.linked[0]) + StagePrograms(s, mutexed, 1));
  }

  lemma SubmitRest(p: State, kind: Kind, mutexed: bool, c: nat, payload: set<int>)
    requires Enabled(p, Handed(payload))
    ensures StageRest(Apply(p, Handed(payload)), kind, mutexed, c) == StageRest(p, kind, mutexed, c)
  {
  }

  lemma NextStageRest(s: ChainState, mutexed: bool)
    requires ChainOk(s) && CanMove(s, NextStage) && StageOk(s, s.stage)
    ensures Rest(s, mutexed) == [NextStage] + Rest(Do(s, NextStage), mutexed)
  {
    hide Apply, Enabled, StageRest, StageProgram, Rest;
    var t := Do(s, NextStage);
    SamePrograms(s, t, mutexed, s.stage + 1);
    NothingToFeed(s, mutexed);
    JoinedRest(s.pools[s.stage], s.kinds[s.stage], mutexed, s.linked[s.stage]);
    if t.stage < |t.pools| {
      assert StageOk(s, t.stage);
      OpenRest(s.pools[t.stage], s.kinds[t.stage], mutexed, s.linked[t.stage]);
      NothingToFeed(t, mutexed);
    } else {
      EndRest(t, mutexed);
    }
  }

  lemma EndRest(s: ChainState, mutexed: bool)
    requires |s.kinds| == |s.pools| == |s.linked| <= s.stage
    ensures Rest(s, mutexed) == [] && StagePrograms(s, mutexed, s.stage) == []
  {
  }

  lemma JoinedRest(p: State, kind: Kind, mutexed: bool, c: nat)
    requires Joined(p)
    ensures StageRest(p, kind, mutexed, c) == [NextStage]
  {
  }

  // At a stage that has not been flushed its whole program is left.
  lemma OpenRest(p: State, kind: Kind, mutexed: bool, c: nat)
    requires p.owner.Open? && |p.calls| <= c
    ensures StageRest(p, kind, mutexed, c) == StageProgram(kind, mutexed, p.tasks, c)
  {
  }

  // What is left depends on what main has done only.
  lemma SameRest(s: ChainState, t: ChainState, mutexed: bool)
    requires |s.kinds| == |s.pools| == |s.linked| == |t.pools| && t.kinds == s.kinds && t.linked == s.linked
    requires t.stage == s.stage && t.fed == s.fed && t.sources == s.sources
    requires forall j :: 0 <= j < |s.pools| ==> t.pools[j].tasks == s.pools[j].tasks
    requires s.stage < |s.pools| ==>
      StageRest(t.pools[s.stage], s.kinds[s.stage], mutexed, s.linked[s.stage]) ==
        StageRest(s.pools[s.stage], s.kinds[s.stage], mutexed, s.linked[s.stage])
    ensures Rest(t, mutexed) == Rest(s, mutexed)
  {
    hide StageRest, StagePrograms;
    SamePrograms(s, t, mutexed, s.stage + 1);
  }

  lemma WorkerStageRest(p: State, kind: Kind, mutexed: bool, c: nat, st: Step)
    requires Enabled(p, st) && st.ByWorker()
    ensures StageRest(Apply(p, st), kind, mutexed, c) == StageRest(p, kind, mutexed, c)
  {
    WorkerStepOutside(p, st);
    hide Apply, Enabled;
  }

  // The moves of the workers leave to main what is left to do.
  lemma WorkerStepRest(s: ChainState, mutexed: bool, k: nat, st: Step)
    requires ChainOk(s) && CanMove(s, InPool(k, st))
    ensures ChainOk(Do(s, InPool(k, st))) && Rest(Do(s, InPool(k, st)), mutexed) == Rest(s, mutexed)
  {
    var m := InPool(k, st);
    ChainOkKept(s, m);
    SizesKept(s, m);
    LinkedSame(s, m);
    hide Apply, Enabled, StageRest, Rest, StageOk;
    WorkerStageRest(s.pools[k], s.kinds[k], mutexed, s.linked[k], st);
    var e := Emission(s.kinds[k], s.pools[k], st);
    if e.Some? && k + 1 < |s.pools| {
      SubmitRest(s.pools[k + 1], s.kinds[k + 1], mutexed, s.linked[k + 1], e.value);
    }
    SameRest(s, Do(s, m), mutexed);
  }

  lemma StartRest(s: ChainState, mutexed: bool)
    requires Start(s)
    ensures MainProgram(s, mutexed) == Rest(s, mutexed)
  {
  }

  // Getting through

  // While the chain is not at its end, main's next move is possible or a worker's is.
  lemma NextOrWorker(s: ChainState, mutexed: bool)
    requires ChainOk(s) && Usable(s) && Unclogged(s) && !Finale(s)
    ensures Rest(s, mutexed) != []
    ensures CanMove(s, Rest(s, mutexed)[0]) || exists k, st :: CanMove(s, InPool(k, st))
  {
    ChainMoves(s);
    var m :| CanMove(s, m);
    if !m.InPool? {
      if m.ByMain? && m.st.StartCall? {
        m := ByMain(StartCall(mutexed, Collect));
        assert CanMove(s, m);
      }
      MainStepRest(s, mutexed, m);
    } else {
      assert CanMove(s, InPool(m.k, m.st));
      RestLeft(s, mutexed);
    }
  }

  lemma RestLeft(s: ChainState, mutexed: bool)
    requires |s.kinds| == |s.pools| == |s.linked| && s.stage < |s.pools|
    ensures Rest(s, mutexed) != []
  {
  }

  // Main keeps to what is left to do, whatever the schedule.
  lemma {:induction false} StaysOnTrack(s: ChainState, mutexed: bool, schedule: seq<Move>) returns (moves: seq<Move>)
    requires ChainOk(s)
    ensures var end := Played(s, Rest(s, mutexed), schedule);
      CanMoveAll(s, moves) && DoAll(s, moves) == end.s && ChainOk(end.s) && end.program == Rest(end.s, mutexed)
    decreases |schedule|
  {
    hide CanMove, Do, StageOk, Rest;
    var program := Rest(s, mutexed);
    if program == [] || schedule == [] {
      moves := [];
    } else {
      var m := if schedule[0].InPool? then schedule[0] else program[0];
      FirstIsMains(s, mutexed);
      if CanMove(s, m) {
        OnTrackStep(s, mutexed, m);
        var rest := StaysOnTrack(Do(s, m), mutexed, schedule[1..]);
        moves := [m] + rest;
        assert moves[1..] == rest;
      } else {
        moves := StaysOnTrack(s, mutexed, schedule[1..]);
      }
    }
  }

  lemma OnTrackStep(s: ChainState, mutexed: bool, m: Move)
    requires ChainOk(s) && CanMove(s, m) && (!m.InPool? ==> Rest(s, mutexed) != [] && m == Rest(s, mutexed)[0])
    ensures ChainOk(Do(s, m))
    ensures Rest(Do(s, m), mutexed) == if m.InPool? then Rest(s, mutexed) else Rest(s, mutexed)[1..]
  {
    if m.InPool? {
      WorkerStepRest(s, mutexed, m.k, m.st);
    } else {
      RestIsMutexed(s, mutexed);
      MainStepRest(s, mutexed, m);
    }
  }

  // The call that main has still to start is of its own kind.
  lemma RestIsMutexed(s: ChainState, mutexed: bool)
    requires ChainOk(s) && Rest(s, mutexed) != []
    ensures var m := Rest(s, mutexed)[0]; m.ByMain? && m.st.StartCall? ==> m.st.mutexed == mutexed
  {
    if s.stage < |s.pools| {
      assert StageRest(s.pools[s.stage], s.kinds[s.stage], mutexed, s.linked[s.stage]) != [];
      StageRestMutexed(s.pools[s.stage], s.kinds[s.stage], mutexed, s.linked[s.stage]);
    }
  }

  lemma StageRestMutexed(p: State, kind: Kind, mutexed: bool, c: nat)
    ensures StageRest(p, kind, mutexed, c) != []
    ensures var m := StageRest(p, kind, mutexed, c)[0]; m.ByMain? && m.st.StartCall? ==> m.st.mutexed == mutexed
  {
  }

  // Main gets through for some schedule, if every stage has room for its stop tokens.
  lemma {:induction false} MainGetsThrough(s: ChainState, mutexed: bool) returns (schedule: seq<Move>)
    requires ChainOk(s) && Roomy(s)
    ensures Played(s, Rest(s, mutexed), schedule).program == []
    decreases ChainMeasure(s)
  {
    hide CanMove, Do, StageOk, Rest, ChainMeasure, Roomy;
    if Finale(s) {
      FinaleRest(s, mutexed);
      schedule := [];
    } else {
      RoomyMoves(s, mutexed);
      var m := Rest(s, mutexed)[0];
      if !CanMove(s, m) {
        var k, st :| CanMove(s, InPool(k, st));
        m := InPool(k, st);
      }
      FirstIsMains(s, mutexed);
      OnTrackStep(s, mutexed, m);
      MoveCost(s, m);
      RoomyKept(s, m);
      var rest := MainGetsThrough(Do(s, m), mutexed);
      schedule := [m] + rest;
      assert schedule[1..] == rest;
    }
  }

  lemma FinaleRest(s: ChainState, mutexed: bool)
    requires ChainOk(s) && Finale(s)
    ensures Rest(s, mutexed) == []
  {
  }

  lemma RoomyMoves(s: ChainState, mutexed: bool)
    requires ChainOk(s) && Roomy(s) && !Finale(s)
    ensures Rest(s, mutexed) != []
    ensures CanMove(s, Rest(s, mutexed)[0]) || exists k, st :: CanMove(s, InPool(k, st))
  {
    RoomyUnclogged(s);
    NextOrWorker(s, mutexed);
  }

  lemma RoomyKept(s: ChainState, m: Move)
    requires Roomy(s) && CanMove(s, m)
    ensures Roomy(Do(s, m))
  {
    SizesKept(s, m);
  }

  lemma FirstIsMains(s: ChainState, mutexed: bool)
    requires ChainOk(s) && Rest(s, mutexed) != []
    ensures !Rest(s, mutexed)[0].InPool?
  {
    if s.stage < |s.pools| {
      StageRestMains(s.pools[s.stage], s.kinds[s.stage], mutexed, s.linked[s.stage]);
    }
  }

  lemma StageRestMains(p: State, kind: Kind, mutexed: bool, c: nat)
    ensures StageRest(p, kind, mutexed, c) != [] && !StageRest(p, kind, mutexed, c)[0].InPool?
  {
  }
}
