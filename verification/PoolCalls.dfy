// in_all_threads gets through when it is the only call or the pool has one worker, and otherwise
// overlapping calls can deadlock; what set_thread_local sets is read by every command behind it, up to
// the next set_thread_local.
module PoolCalls {

  import opened Counting
  import opened Wrappers
  import opened Pool
  import opened PoolInvariant
  import opened PoolSafety
  import opened PoolShutdown

  // c is the one call of in_all_threads that has not returned.
  ghost predicate OnlyCall(s: State, c: nat) {
    && c < |s.calls| && !s.calls[c].caller.Returned?
    && (forall d :: 0 <= d < |s.calls| && d != c ==> s.calls[d].caller.Returned?)
  }

  // A worker that can do nothing by itself: it waits for a command or for the others.
  ghost predicate Held(s: State, w: nat, c: nat)
    requires w < |s.workers|
  {
    (s.workers[w].phase.Dequeuing? && s.queue == []) || w in AtBarrierOf(s, c)
  }

  lemma MovesOrHeld(s: State, c: nat, w: nat)
    requires Inv(s) && s.owner.Open? && OnlyCall(s, c) && w < |s.workers|
    ensures Held(s, w, c) || exists v: nat :: v < |s.workers| && Enabled(s, NextOf(s.workers[v].phase, v))
  {
    assert WorkerOk(s, w);
    var p := s.workers[w].phase;
    if p.Entering? && !Enabled(s, NextOf(p, w)) {
      var d := s.accepted[p.i].call;
      assert MutexFor(s, d);
      var v := s.calls[d].holder.value;
      assert InBodyOf(s, v, d) && WorkerOk(s, v);
      assert Enabled(s, NextOf(s.workers[v].phase, v));
    } else if p.AtBarrier? && s.accepted[p.i].call != c {
      assert Released(s, s.accepted[p.i].call);
      assert Enabled(s, NextOf(p, w));
    } else if !Held(s, w, c) {
      assert Enabled(s, NextOf(p, w));
    }
  }

  // Before the barrier opens, the workers inside it stand for different tickets.
  lemma BarrierWithinTickets(s: State, c: nat)
    requires Inv(s) && c < |s.calls|
    ensures |AtBarrierOf(s, c)| <= |s.calls[c].tickets|
  {
    var tickets := s.calls[c].tickets;
    TakersFew(s, tickets, |tickets|);
    forall w | w in AtBarrierOf(s, c) ensures w in TakersOf(s, tickets, |tickets|) {
      assert WorkerOk(s, w);
      var i := s.workers[w].phase.i;
      assert i in s.workers[w].log && i in tickets;
      assert TakenBy(s, tickets[IndexIn(tickets, i)], w);
    }
    SubsetSize(AtBarrierOf(s, c), TakersOf(s, tickets, |tickets|));
  }

  ghost function TakersOf(s: State, tickets: seq<nat>, n: nat): (ws: set<nat>)
    requires n <= |tickets|
    ensures forall j, w: nat :: 0 <= j < n && TakenBy(s, tickets[j], w) ==> w in ws
  {
    if n == 0 then {}
    else TakersOf(s, tickets, n - 1) + (if tickets[n - 1] < |s.taker| then {s.taker[tickets[n - 1]]} else {})
  }

  lemma {:induction false} TakersFew(s: State, tickets: seq<nat>, n: nat)
    requires n <= |tickets|
    ensures |TakersOf(s, tickets, n)| <= n
  {
    if n > 0 {
      TakersFew(s, tickets, n - 1);
    }
  }

  // With the queue drained and every worker held, all of them have come to the open call's barrier.
  lemma AllArrived(s: State, c: nat)
    requires Inv(s) && OnlyCall(s, c) && |s.calls[c].tickets| == s.tasks && !Released(s, c)
    requires s.queue == [] && forall w: nat :: w < |s.workers| ==> Held(s, w, c)
    ensures |AtBarrierOf(s, c)| == s.tasks
  {
    var tickets := s.calls[c].tickets;
    assert BarrierClosed(s, c);
    forall t | t in tickets
      ensures t < |s.taker| && s.taker[t] < s.tasks && Parked(s.workers[s.taker[t]].phase, t)
    {
      assert ForCall(s, t, c);
      assert Held(s, s.taker[t], c);
    }
    var js := seq(s.tasks, j requires 0 <= j < s.tasks && tickets[j] in tickets => s.taker[tickets[j]]);
    assert Distinct(js) by {
      forall j, k | 0 <= j < k < s.tasks ensures js[j] != js[k] {
        assert tickets[j] in tickets && tickets[k] in tickets;
        assert tickets[j] < tickets[k];
      }
    }
    forall j | 0 <= j < s.tasks ensures js[j] < s.tasks {
      assert tickets[j] in tickets;
    }
    Pigeonhole(js, s.tasks);
    forall w: nat | w < s.tasks ensures w in AtBarrierOf(s, c) {
      assert w in js;
      var j :| 0 <= j < |js| && js[j] == w;
      assert tickets[j] in tickets;
      assert Held(s, w, c);
    }
    SubsetSize(Below(s.tasks), AtBarrierOf(s, c));
    SubsetSize(AtBarrierOf(s, c), Below(s.tasks));
  }

  // A step of the call c itself.
  predicate ByCaller(st: Step, c: nat) {
    st == SendTicket(c) || st == CallerArrive(c) || st == CallerReturn(c)
  }

  // The only call in progress never blocks: a worker or the caller can move.
  lemma OnlyCallMoves(s: State, c: nat)
    requires Inv(s) && s.owner.Open? && OnlyCall(s, c) && s.cap >= 1 && s.tasks >= 1
    ensures exists st :: Enabled(s, st) && (st.ByWorker() || ByCaller(st, c))
  {
    if v: nat :| v < |s.workers| && !Held(s, v, c) {
      MovesOrHeld(s, c, v);
      var u: nat :| u < |s.workers| && Enabled(s, NextOf(s.workers[u].phase, u));
      assert NextOf(s.workers[u].phase, u).ByWorker();
    } else if exists v: nat :: v < |s.workers| && Enabled(s, NextOf(s.workers[v].phase, v)) {
      var u: nat :| u < |s.workers| && Enabled(s, NextOf(s.workers[u].phase, u));
      assert NextOf(s.workers[u].phase, u).ByWorker();
    } else if s.calls[c].caller.Submitting? {
      if |s.calls[c].tickets| == s.tasks {
        assert Enabled(s, CallerArrive(c));
      } else {
        BarrierWithinTickets(s, c);
        if s.queue != [] {
          AllAtBarrier(s, c);
        }
        assert Enabled(s, SendTicket(c));
      }
    } else {
      HeldReleases(s, c);
      assert Enabled(s, CallerReturn(c));
    }
  }

  lemma HeldReleases(s: State, c: nat)
    requires Inv(s) && OnlyCall(s, c) && s.calls[c].caller.Waiting?
    requires forall w: nat :: w < |s.workers| ==> Held(s, w, c)
    ensures Released(s, c)
  {
    if !Released(s, c) {
      if s.queue == [] {
        AllArrived(s, c);
      } else {
        AllAtBarrier(s, c);
      }
    }
  }

  lemma AllAtBarrier(s: State, c: nat)
    requires Inv(s) && c < |s.calls| && s.queue != []
    requires forall w: nat :: w < |s.workers| ==> Held(s, w, c)
    ensures |AtBarrierOf(s, c)| == s.tasks
  {
    forall w | w in Below(s.tasks) ensures w in AtBarrierOf(s, c) {
      assert Held(s, w, c);
    }
    SubsetSize(Below(s.tasks), AtBarrierOf(s, c));
    SubsetSize(AtBarrierOf(s, c), Below(s.tasks));
  }

  // No step that carries on something begun is left.
  ghost predicate Quiet(s: State) {
    forall st :: Enabled(s, st) ==> st.External()
  }

  ghost predicate LeadsAlone(s: State, t: State) {
    exists steps :: CanRun(s, steps) && NoExternal(steps) && Run(s, steps) == t
  }

  // Overlapping calls

  // The calls of in_all_threads that have not returned.
  ghost function InProgress(s: State): set<nat> {
    set c: nat | c < |s.calls| && !s.calls[c].caller.Returned?
  }

  lemma InProgressShrinks(s: State, st: Step)
    requires Enabled(s, st) && !st.External()
    ensures InProgress(Apply(s, st)) <= InProgress(s) && |s.calls| <= |Apply(s, st).calls|
  {
  }

  lemma {:induction false} InProgressAlongRun(s: State, steps: seq<Step>)
    requires CanRun(s, steps) && NoExternal(steps)
    ensures InProgress(Run(s, steps)) <= InProgress(s) && |s.calls| <= |Run(s, steps).calls|
    decreases |steps|
  {
    hide Apply, Enabled, InProgress;
    if steps != [] {
      assert !steps[0].External();
      InProgressShrinks(s, steps[0]);
      assert NoExternal(steps[1..]);
      InProgressAlongRun(Apply(s, steps[0]), steps[1..]);
    }
  }

  // At most one call in progress, or only one worker: something begun can go on.
  lemma FewCallsMove(s: State, c: nat)
    requires Inv(s) && c in InProgress(s) && s.cap >= 1 && s.tasks >= 1
    requires s.tasks == 1 || |InProgress(s)| <= 1
    ensures !Quiet(s)
  {
    assert s.owner.Open?;
    if s.tasks == 1 {
      OneWorkerMoves(s, c);
    } else {
      forall d: nat | d < |s.calls| && d != c ensures s.calls[d].caller.Returned? {
        if d in InProgress(s) {
          SubsetSize({c, d}, InProgress(s));
        }
      }
      OnlyCallMoves(s, c);
    }
  }

  // A single worker is never kept at a barrier by anyone but the caller it waits for.
  lemma OneWorkerMoves(s: State, c: nat)
    requires Inv(s) && s.owner.Open? && c in InProgress(s) && s.cap >= 1 && s.tasks == 1
    ensures !Quiet(s)
  {
    assert WorkerOk(s, 0);
    var p := s.workers[0].phase;
    assert p.Entering? ==> MutexFor(s, s.accepted[p.i].call);
    if Enabled(s, NextOf(p, 0)) {
      assert NextOf(p, 0).ByWorker();
    } else if p.AtBarrier? {
      OnlyCallerMissing(s, s.accepted[p.i].call);
    } else {
      IdleWorkerCaller(s, c);
    }
  }

  lemma OnlyCallerMissing(s: State, d: nat)
    requires Inv(s) && s.tasks == 1 && d < |s.calls| && !Released(s, d) && 0 in AtBarrierOf(s, d)
    ensures Enabled(s, CallerArrive(d))
  {
    assert BarrierClosed(s, d) && WorkerOk(s, 0);
    assert AtBarrierOf(s, d) == {0};
    var i := s.workers[0].phase.i;
    assert i in s.workers[0].log && i in s.calls[d].tickets;
  }

  // With the only worker inside dequeue over an empty queue, no ticket is out: the caller can go on.
  lemma IdleWorkerCaller(s: State, c: nat)
    requires Inv(s) && s.owner.Open? && c in InProgress(s) && s.cap >= 1 && s.tasks == 1
    requires s.workers[0].phase.Dequeuing? && s.queue == []
    ensures !Quiet(s)
  {
    if s.calls[c].caller.Submitting? {
      if |s.calls[c].tickets| == 1 {
        assert Enabled(s, CallerArrive(c));
      } else {
        assert Enabled(s, SendTicket(c));
      }
    } else {
      assert Enabled(s, CallerReturn(c)) by {
        var t := s.calls[c].tickets[0];
        assert t in s.calls[c].tickets && ForCall(s, t, c);
        assert t < |s.taker| && s.taker[t] == 0;
      }
    }
  }

  // Two workers, each kept inside the barrier of a different call.
  ghost predicate Jammed(s: State) {
    && Inv(s) && 2 <= s.tasks && 2 <= |s.calls|
    && 0 in AtBarrierOf(s, 0) && !Released(s, 0)
    && 1 in AtBarrierOf(s, 1) && !Released(s, 1)
  }

  // A barrier that one of the workers cannot come to does not open.
  lemma BarrierStaysClosed(s: State, st: Step, c: nat, w: nat)
    requires Inv(s) && Enabled(s, st) && c < |s.calls| && !Released(s, c)
    requires Basics(Apply(s, st)) && w < s.tasks && w !in AtBarrierOf(Apply(s, st), c)
    ensures Apply(s, st).tasks == s.tasks && |s.calls| <= |Apply(s, st).calls| && !Released(Apply(s, st), c)
  {
    var t := Apply(s, st);
    ArrivalsCounted(s, st, c);
    StepGrows(s, st);
    ConstantsKept(s, st);
    SubsetSize(AtBarrierOf(t, c) + {w}, Below(s.tasks));
  }

  lemma AtBarrierKept(s: State, st: Step, c: nat, w: nat)
    requires Inv(s) && Enabled(s, st) && c < |s.calls| && !Released(s, c) && w in AtBarrierOf(s, c)
    ensures w in AtBarrierOf(Apply(s, st), c)
  {
    assert WorkerOk(s, w);
  }

  lemma JammedKept(s: State, st: Step)
    requires Jammed(s) && Enabled(s, st)
    ensures Jammed(Apply(s, st))
  {
    hide Enabled, Apply, Basics, Accounted, MutexOk;
    AtBarrierKept(s, st, 0, 0);
    AtBarrierKept(s, st, 1, 1);
    InvKept(s, st);
    BarrierStaysClosed(s, st, 0, 1);
    BarrierStaysClosed(s, st, 1, 0);
  }

  lemma {:induction false} JammedForGood(s: State, steps: seq<Step>)
    requires Jammed(s) && CanRun(s, steps)
    ensures Jammed(Run(s, steps))
    decreases |steps|
  {
    hide Apply, Enabled, Jammed;
    if steps != [] {
      JammedKept(s, steps[0]);
      JammedForGood(Apply(s, steps[0]), steps[1..]);
    }
  }

  // The caller of call c sends its next barrier command and worker w takes it, runs f and goes to
  // the barrier.
  lemma SentToBarrier(s0: State, s: State, c: nat, w: nat) returns (t: State)
    requires Leads(s0, s) && s.owner.Open? && !s.stopped && s.cap >= 1 && s.queue == []
    requires CallIn(s, c, Submitting) && |s.calls[c].tickets| < s.tasks && !s.calls[c].mutexed
    requires w < |s.workers| && s.workers[w].phase.CheckStop?
    ensures Leads(s0, t)
    ensures var i := |s.accepted|; var call := s.calls[c];
      t == s.(accepted := s.accepted + [InAll(c)], taker := s.taker + [w],
              workers := s.workers[w := Worker(AtBarrier(i), s.workers[w].log + [i], s.workers[w].r)],
              calls := s.calls[c := call.(tickets := call.tickets + [i], holder := None, arrivals := call.arrivals + 1)])
  {
    LeadsStep(s0, s, SendTicket(c)); t := Apply(s, SendTicket(c));
    assert t.queue == [|s.accepted|];
    t := WorkerToBody(s0, t, w);
    t := BodyToBarrier(s0, t, w);
  }

  lemma BodyToBarrier(s0: State, s: State, w: nat) returns (t: State)
    requires Leads(s0, s) && w < |s.workers| && s.workers[w].phase.InBody? && Barred(s, s.workers[w].phase.i)
    ensures Leads(s0, t)
    ensures var worker := s.workers[w]; var i := worker.phase.i; var c := s.accepted[i].call;
      t == s.(workers := s.workers[w := Worker(AtBarrier(i), worker.log + [i], worker.r)],
              calls := s.calls[c := s.calls[c].(holder := None, arrivals := s.calls[c].arrivals + 1)])
  {
    LeadsStep(s0, s, EndBody(w)); t := Apply(s, EndBody(w));
    LeadsStep(s0, t, Arrive(w)); t := Apply(t, Arrive(w));
  }

  lemma WorkerToBody(s0: State, s: State, w: nat) returns (t: State)
    requires Leads(s0, s) && !s.stopped && w < |s.workers| && s.workers[w].phase.CheckStop?
    requires s.queue != [] && Barred(s, s.queue[0]) && !s.calls[s.accepted[s.queue[0]].call].mutexed
    ensures Leads(s0, t)
    ensures t == s.(queue := s.queue[1..], taker := s.taker + [w],
                    workers := s.workers[w := s.workers[w].(phase := InBody(s.queue[0]))])
  {
    t := s;
    LeadsStep(s0, t, Check(w)); t := Apply(t, Check(w));
    LeadsStep(s0, t, Take(w)); t := Apply(t, Take(w));
    LeadsStep(s0, t, Enter(w)); t := Apply(t, Enter(w));
    assert t.calls == s.calls;
  }

  // Each of two callers sends a barrier command, and two workers take one each.
  lemma Jams(cap: nat, tasks: nat, mode: Mode) returns (s: State)
    requires cap >= 1 && tasks >= 2
    ensures Leads(Init(cap, tasks, mode), s) && s.owner.Open? && Jammed(s) && |s.calls| == 2
    ensures s.cap == cap && s.tasks == tasks && s.mode == mode
  {
    var s0 := Init(cap, tasks, mode);
    LeadsStart(s0);
    LeadsStep(s0, s0, StartCall(false, Plain)); s := Apply(s0, StartCall(false, Plain));
    LeadsStep(s0, s, StartCall(false, Plain)); s := Apply(s, StartCall(false, Plain));
    s := SentToBarrier(s0, s, 0, 0);
    s := SentToBarrier(s0, s, 1, 1);
    ReachableInv(s);
  }

  // Two overlapping calls can block each other: for any pool with more than one worker, a state is
  // reachable from which neither ever returns.
  lemma OverlappingCallsDeadlock(cap: nat, tasks: nat, mode: Mode) returns (s: State)
    requires cap >= 1 && tasks >= 2
    ensures Leads(Init(cap, tasks, mode), s) && Reachable(s) && s.owner.Open? && InProgress(s) == {0, 1}
    ensures forall t :: Leads(s, t) ==> {0, 1} <= InProgress(t)
  {
    s := Jams(cap, tasks, mode);
    forall t | Leads(s, t) ensures {0, 1} <= InProgress(t) {
      var steps :| CanRun(s, steps) && Run(s, steps) == t;
      JammedForGood(s, steps);
      assert BarrierClosed(t, 0) && BarrierClosed(t, 1);
    }
    LeadsStart(s);
  }

  // From s every call in progress returns: without new submissions every run ends, and at its end
  // no call is in progress.
  ghost predicate CallsReturn(s: State) {
    && (forall steps :: CanRun(s, steps) && NoExternal(steps) ==> |steps| <= Measure(s, 0))
    && (forall t :: LeadsAlone(s, t) && Quiet(t) ==> InProgress(t) == {} && |s.calls| <= |t.calls|)
  }

  lemma FewCallsReturn(s: State)
    requires Reachable(s) && s.cap >= 1 && s.tasks >= 1
    requires s.tasks == 1 || |InProgress(s)| <= 1
    ensures CallsReturn(s)
  {
    ReachableInv(s);
    forall steps | CanRun(s, steps) && NoExternal(steps) ensures |steps| <= Measure(s, 0) {
      RunsAreFinite(s, steps);
    }
    forall t | LeadsAlone(s, t) && Quiet(t) ensures InProgress(t) == {} && |s.calls| <= |t.calls| {
      var steps :| CanRun(s, steps) && NoExternal(steps) && Run(s, steps) == t;
      InProgressAlongRun(s, steps);
      InvAlongRun(s, steps);
      ConstantsAlongRun(s, steps);
      SubsetSize(InProgress(t), InProgress(s));
      if c :| c in InProgress(t) {
        FewCallsMove(t, c);
      }
    }
  }

  // From any state some run without new submissions leads to a quiet one.
  lemma {:induction false} ReachesQuiet(s: State) returns (steps: seq<Step>)
    requires Inv(s)
    ensures CanRun(s, steps) && NoExternal(steps) && Quiet(Run(s, steps))
    decreases Measure(s, 0)
  {
    if Quiet(s) {
      steps := [];
    } else {
      var st :| Enabled(s, st) && !st.External();
      InvKept(s, st);
      MeasureFalls(s, st, 0);
      var rest := ReachesQuiet(Apply(s, st));
      steps := [st] + rest;
      assert steps[1..] == rest;
    }
  }

  // The only call of in_all_threads in progress returns: without new submissions every run ends,
  // and it does not end before the call has returned.
  lemma OnlyCallReturns(s: State, c: nat)
    requires Reachable(s) && s.owner.Open? && OnlyCall(s, c) && s.cap >= 1 && s.tasks >= 1
    ensures forall steps :: CanRun(s, steps) && NoExternal(steps) ==> |steps| <= Measure(s, 0)
    ensures forall t :: LeadsAlone(s, t) && Quiet(t) ==> CallIn(t, c, Returned)
  {
    assert InProgress(s) == {c};
    FewCallsReturn(s);
    forall t | LeadsAlone(s, t) && Quiet(t) ensures CallIn(t, c, Returned) {
      assert c !in InProgress(t);
    }
  }

  // Exactly when overlapping is safe: up to n calls at a time return, whatever has happened before,
  // if and only if the pool has one worker or n is at most one.
  lemma OverlapSafeIff(cap: nat, tasks: nat, mode: Mode, n: nat)
    requires cap >= 1 && tasks >= 1
    ensures
      (forall s :: Leads(Init(cap, tasks, mode), s) && |InProgress(s)| <= n ==> CallsReturn(s))
      <==> tasks == 1 || n <= 1
  {
    var s0 := Init(cap, tasks, mode);
    if tasks == 1 || n <= 1 {
      forall s | Leads(s0, s) && |InProgress(s)| <= n ensures CallsReturn(s) {
        var steps :| CanRun(s0, steps) && Run(s0, steps) == s;
        ConstantsAlongRun(s0, steps);
        FewCallsReturn(s);
      }
    } else {
      var s := OverlappingCallsDeadlock(cap, tasks, mode);
      ReachableInv(s);
      var steps := ReachesQuiet(s);
      assert LeadsAlone(s, Run(s, steps)) && Leads(s, Run(s, steps));
      assert 0 in InProgress(Run(s, steps));
    }
  }

  // In the words of the caller: no two calls ever wait for each other for good exactly with one worker.
  lemma NeverJammedIff(cap: nat, tasks: nat, mode: Mode)
    requires cap >= 1 && tasks >= 1
    ensures
      (forall s, c, d :: Leads(Init(cap, tasks, mode), s) && c != d && {c, d} <= InProgress(s) ==>
         exists t :: Leads(s, t) && !({c, d} <= InProgress(t)))
      <==> tasks == 1
  {
    var s0 := Init(cap, tasks, mode);
    if tasks == 1 {
      forall s, c, d | Leads(s0, s) && c != d && {c, d} <= InProgress(s)
        ensures exists t :: Leads(s, t) && !({c, d} <= InProgress(t))
      {
        var xs :| CanRun(s0, xs) && Run(s0, xs) == s;
        ConstantsAlongRun(s0, xs);
        FewCallsReturn(s);
        ReachableInv(s);
        var steps := ReachesQuiet(s);
        assert LeadsAlone(s, Run(s, steps)) && Leads(s, Run(s, steps));
        assert c !in InProgress(Run(s, steps));
      }
    } else {
      var s := OverlappingCallsDeadlock(cap, tasks, mode);
      assert {0, 1} <= InProgress(s);
    }
  }

  // Which calls exclude their runs of f

  // A call stays what it was started as.
  lemma CallStays(s: State, st: Step, c: nat)
    requires Enabled(s, st) && c < |s.calls|
    ensures c < |Apply(s, st).calls|
    ensures Apply(s, st).calls[c].mutexed == s.calls[c].mutexed && Apply(s, st).calls[c].body == s.calls[c].body
  {
  }

  lemma {:induction false} CallStaysAlongRun(s: State, steps: seq<Step>, c: nat)
    requires CanRun(s, steps) && c < |s.calls|
    ensures c < |Run(s, steps).calls|
    ensures Run(s, steps).calls[c].mutexed == s.calls[c].mutexed && Run(s, steps).calls[c].body == s.calls[c].body
    decreases |steps|
  {
    hide Enabled, Apply;
    if steps != [] {
      CallStays(s, steps[0], c);
      CallStaysAlongRun(Apply(s, steps[0]), steps[1..], c);
    }
  }

  // At no time are two workers inside f of a call of in_all_threads_mut, from when it was started.
  lemma MutCallExcludes(s: State, body: Body, t: State, w: nat, v: nat)
    requires Reachable(s) && Enabled(s, StartCall(true, body)) && Leads(Apply(s, StartCall(true, body)), t)
    requires InBodyOf(t, w, |s.calls|) && InBodyOf(t, v, |s.calls|)
    ensures w == v
  {
    var c := |s.calls|;
    var u := Apply(s, StartCall(true, body));
    var steps :| CanRun(u, steps) && Run(u, steps) == t;
    CallStaysAlongRun(u, steps, c);
    ReachableInv(s);
    InvKept(s, StartCall(true, body));
    InvAlongRun(u, steps);
    assert MutexFor(t, c);
  }

  // The caller of call c sends its next barrier command, and worker w takes it and runs f.
  lemma SentToBody(s0: State, s: State, c: nat, w: nat) returns (t: State)
    requires Leads(s0, s) && s.owner.Open? && !s.stopped && s.cap >= 1 && s.queue == []
    requires CallIn(s, c, Submitting) && |s.calls[c].tickets| < s.tasks && !s.calls[c].mutexed
    requires w < |s.workers| && s.workers[w].phase.CheckStop?
    ensures Leads(s0, t) && t.owner == s.owner && !t.stopped && t.cap == s.cap && t.tasks == s.tasks && t.queue == []
    ensures t.workers == s.workers[w := s.workers[w].(phase := InBody(|s.accepted|))] && t.accepted == s.accepted + [InAll(c)]
    ensures t.calls == s.calls[c := s.calls[c].(tickets := s.calls[c].tickets + [|s.accepted|])]
  {
    LeadsStep(s0, s, SendTicket(c)); t := Apply(s, SendTicket(c));
    assert t.queue == [|s.accepted|];
    t := WorkerToBody(s0, t, w);
  }

  // In a pool with two threads or more the runs of f of one in_all_threads call can overlap.
  lemma PlainCallOverlaps(cap: nat, tasks: nat, mode: Mode, body: Body) returns (t: State)
    requires cap >= 1 && tasks >= 2
    ensures Enabled(Init(cap, tasks, mode), StartCall(false, body))
    ensures Leads(Apply(Init(cap, tasks, mode), StartCall(false, body)), t) && InBodyOf(t, 0, 0) && InBodyOf(t, 1, 0)
  {
    var s := Apply(Init(cap, tasks, mode), StartCall(false, body));
    LeadsStart(s);
    t := SentToBody(s, s, 0, 0);
    t := SentToBody(s, t, 0, 1);
  }

  // Exactly which calls exclude their runs of f, in a pool with two threads or more: those of
  // in_all_threads_mut.
  lemma ExcludesIff(cap: nat, tasks: nat, mode: Mode, mutexed: bool, body: Body)
    requires cap >= 1 && tasks >= 2
    ensures
      (forall s, t, w, v ::
         (Leads(Init(cap, tasks, mode), s) && Enabled(s, StartCall(mutexed, body)) &&
          Leads(Apply(s, StartCall(mutexed, body)), t) && InBodyOf(t, w, |s.calls|) && InBodyOf(t, v, |s.calls|)) ==> w == v)
      <==> mutexed
  {
    var s0 := Init(cap, tasks, mode);
    if mutexed {
      forall s, t, w, v |
        Leads(s0, s) && Enabled(s, StartCall(mutexed, body)) &&
        Leads(Apply(s, StartCall(mutexed, body)), t) && InBodyOf(t, w, |s.calls|) && InBodyOf(t, v, |s.calls|)
        ensures w == v
      {
        var steps :| CanRun(s0, steps) && Run(s0, steps) == s;
        ConstantsAlongRun(s0, steps);
        MutCallExcludes(s, body, t, w, v);
      }
    } else {
      LeadsStart(s0);
      var t := PlainCallOverlaps(cap, tasks, mode, body);
      assert InBodyOf(t, 0, |s0.calls|) && InBodyOf(t, 1, |s0.calls|);
    }
  }

  // Thread-local state

  predicate SetsSlot(s: State, i: nat) {
    Barred(s, i) && s.calls[s.accepted[i].call].body.SetSlot?
  }

  // The slot of a worker with this log: the value of the last set_thread_local it has run.
  function Slot(s: State, log: seq<nat>): Option<int> {
    if log == [] then None
    else
      var i := log[|log| - 1];
      if SetsSlot(s, i) then Some(s.calls[s.accepted[i].call].body.value) else Slot(s, log[..|log| - 1])
  }

  // The slot of a worker that has run no set_thread_local is as it was.
  lemma {:induction false} SlotUnset(s: State, log: seq<nat>)
    requires forall i :: i in log ==> !SetsSlot(s, i)
    ensures Slot(s, log) == None
    decreases |log|
  {
    if log != [] {
      SlotUnset(s, log[..|log| - 1]);
    }
  }

  lemma {:induction false} SlotSince(s: State, log: seq<nat>, t: nat, v: int)
    requires Increasing(log) && t in log && SetsSlot(s, t)
    requires forall i :: i in log && t <= i && SetsSlot(s, i) ==> s.calls[s.accepted[i].call].body.value == v
    ensures Slot(s, log) == Some(v)
    decreases |log|
  {
    var i := log[|log| - 1];
    if !SetsSlot(s, i) {
      assert i != t;
      SlotSince(s, log[..|log| - 1], t, v);
    }
  }

  // Of the set_thread_local commands that worker w has run, those of call c are the last.
  ghost predicate LastSetOn(s: State, c: nat, w: nat)
    requires c < |s.calls| && w < |s.workers|
  {
    forall t, u :: t in s.workers[w].log && t in s.calls[c].tickets && u in s.workers[w].log && t < u && SetsSlot(s, u) ==>
      s.accepted[u].call == c
  }

  lemma SlotHolds(s: State, c: nat, w: nat)
    requires Inv(s) && c < |s.calls| && Released(s, c) && s.calls[c].body.SetSlot? && w < |s.workers| && LastSetOn(s, c, w)
    ensures Slot(s, s.workers[w].log) == Some(s.calls[c].body.value)
  {
    assert BarrierOpen(s, c) && WorkerOk(s, w);
    var t := s.calls[c].tickets[ServedIndex(s, c, w)];
    assert Finished(s, t) && ForCall(s, t, c);
    SlotSince(s, s.workers[w].log, t, s.calls[c].body.value);
  }

  // After set_thread_local has returned, every worker's slot holds its value, whatever commands were
  // submitted and run since, until the worker runs another set_thread_local.
  lemma SetThreadLocalVisible(s: State, c: nat, w: nat)
    requires Reachable(s) && CallIn(s, c, Returned) && s.calls[c].body.SetSlot? && w < |s.workers|
    requires LastSetOn(s, c, w)
    ensures Slot(s, s.workers[w].log) == Some(s.calls[c].body.value)
  {
    ReachableInv(s);
    SlotHolds(s, c, w);
  }

  // A command behind all the barrier commands of a call is not taken before its barrier has opened:
  // until then the workers that took those are all the workers.
  lemma TakenBehindReleased(s: State, c: nat, w: nat, i: nat)
    requires Inv(s) && c < |s.calls| && |s.calls[c].tickets| == s.tasks && w < |s.workers| && Holds(s.workers[w].phase, i)
    requires forall t :: t in s.calls[c].tickets ==> t < i
    ensures Released(s, c)
  {
    if !Released(s, c) {
      var tickets := s.calls[c].tickets;
      assert BarrierClosed(s, c) && WorkerOk(s, w);
      forall j | 0 <= j < s.tasks ensures tickets[j] < |s.taker| && s.taker[tickets[j]] < s.tasks && s.taker[tickets[j]] != w {
        assert tickets[j] in tickets;
      }
      var js := seq(s.tasks, j requires 0 <= j < s.tasks => s.taker[tickets[j]]);
      assert Distinct(js) by {
        forall j, k | 0 <= j < k < s.tasks ensures js[j] != js[k] {
          assert tickets[j] in tickets && tickets[k] in tickets;
          assert tickets[j] < tickets[k];
        }
      }
      assert w !in js;
      Pigeonhole(js, s.tasks);
      assert false;
    }
  }

  // Every other set_thread_local was sent before call c or after command i.
  ghost predicate NoSetBetween(s: State, c: nat, i: nat)
    requires c < |s.calls|
  {
    forall d, t, u ::
      0 <= d < |s.calls| && d != c && s.calls[d].body.SetSlot? && t in s.calls[c].tickets && u in s.calls[d].tickets ==>
        u < t || i < u
  }

  // Whatever command is submitted behind a set_thread_local and ahead of the next one reads its value,
  // on whichever worker it runs, and whether or not either of the calls has returned.
  lemma CommandReadsSlot(s: State, c: nat, w: nat, i: nat)
    requires Reachable(s) && c < |s.calls| && s.calls[c].body.SetSlot? && |s.calls[c].tickets| == s.tasks
    requires w < |s.workers| && Holds(s.workers[w].phase, i)
    requires (forall t :: t in s.calls[c].tickets ==> t < i) && NoSetBetween(s, c, i)
    ensures Slot(s, s.workers[w].log) == Some(s.calls[c].body.value)
  {
    ReachableInv(s);
    TakenBehindReleased(s, c, w, i);
    assert WorkerOk(s, w);
    forall t, u | t in s.workers[w].log && t in s.calls[c].tickets && u in s.workers[w].log && t < u && SetsSlot(s, u)
      ensures s.accepted[u].call == c
    {
      var d := s.accepted[u].call;
      assert u in s.calls[d].tickets;
    }
    SlotHolds(s, c, w);
  }
}
