// What shutdown does and does not bring about. Completion is a fact about join: a CompletePending
// shutdown waits until the queue is empty, and by then the last commands need only have been taken.
// And an Immediate shutdown does not keep workers inside dequeue from taking one more command each.
module PoolReturn {

  import opened Counting
  import opened Pool
  import opened PoolInvariant
  import opened PoolSafety
  import opened PoolShutdown

  // Each of the first n commands was executed exactly once.
  ghost predicate AllExecuted(s: State, n: nat) {
    forall i: nat :: i < n ==> |Executions(s, i)| == 1
  }

  ghost predicate AllFinished(s: State, n: nat) {
    forall i: nat :: i < n ==> Finished(s, i)
  }

  lemma ExecutedIffFinished(s: State, n: nat)
    requires Inv(s)
    ensures AllExecuted(s, n) <==> AllFinished(s, n)
  {
    forall i: nat | i < n ensures |Executions(s, i)| == 1 <==> Finished(s, i) {
      NeverTwice(s, i);
    }
  }

  // Once a CompletePending shutdown has returned, what is missing is what the workers are executing.
  lemma ReturnedCompleteIff(s: State)
    requires Reachable(s) && s.mode.CompletePending? && s.owner == Sending(s.tasks)
    ensures AllExecuted(s, s.closedAt) <==>
      forall w :: 0 <= w < |s.workers| && s.workers[w].phase.Executing? ==> s.workers[w].phase.i >= s.closedAt
  {
    ReachableInv(s);
    ExecutedIffFinished(s, s.closedAt);
    forall w | 0 <= w < |s.workers| && s.workers[w].phase.Executing? ensures !Finished(s, s.workers[w].phase.i) {
      assert WorkerOk(s, w);
    }
    forall i: nat | i < s.closedAt && !Finished(s, i) ensures s.workers[s.taker[i]].phase == Executing(i) {
      var w := s.taker[i];
      assert Holds(s.workers[w].phase, i) && WorkerOk(s, w);
      if !s.workers[w].phase.Executing? {
        NoLateBody(s, s.accepted[i].call, w);
      }
    }
  }

  // A run in which shutdown returns with a command unfinished

  // shutdown has begun and has not set `stopped`; no call of in_all_threads is in progress.
  ghost predicate Closing(s: State) {
    Inv(s) && (s.owner.AwaitEmpty? || s.owner.Storing?) && s.tasks >= 1
  }

  ghost predicate Awaiting(s: State) {
    Closing(s) && s.owner.AwaitEmpty?
  }

  lemma ClosingWorkerStep(s: State, w: nat)
    requires Closing(s) && w < |s.workers| && (s.workers[w].phase.Dequeuing? ==> s.queue != [])
    ensures Enabled(s, NextOf(s.workers[w].phase, w))
    ensures var t := Apply(s, NextOf(s.workers[w].phase, w));
      && Closing(t) && t.owner == s.owner && t.accepted == s.accepted && t.cap == s.cap && t.tasks == s.tasks
      && t.workers == s.workers[w := t.workers[w]]
      && (if s.workers[w].phase.Dequeuing? then t.queue == s.queue[1..] && Holds(t.workers[w].phase, s.queue[0])
          else t.queue == s.queue && t.taker == s.taker)
      && Measure(t, 0) < Measure(s, 0)
  {
    assert WorkerOk(s, w);
    WorkerMoves(s, w);
    MeasureFalls(s, NextOf(s.workers[w].phase, w), 0);
    InvKept(s, NextOf(s.workers[w].phase, w));
  }

  // The first worker takes everything that is queued, and holds the last command.
  lemma {:induction false} TakesAll(s0: State, s: State) returns (t: State)
    requires Leads(s0, s) && Awaiting(s) && s.queue != []
    ensures Leads(s0, t) && Awaiting(t) && t.queue == [] && Holds(t.workers[0].phase, |s.accepted| - 1)
    ensures t.accepted == s.accepted && t.cap == s.cap && t.tasks == s.tasks
    decreases Measure(s, 0)
  {
    assert s.queue[|s.queue| - 1] == |s.accepted| - 1 && |s.workers| == s.tasks;
    hide Apply, Enabled, Measure, Basics, Accounted, MutexOk, BarriersOk;
    var st := NextOf(s.workers[0].phase, 0);
    ClosingWorkerStep(s, 0);
    LeadsStep(s0, s, st);
    t := Apply(s, st);
    if t.queue != [] {
      t := TakesAll(s0, t);
    }
  }

  // Everyone but v goes to dequeue.
  ghost predicate OthersDequeue(s: State, v: nat) {
    forall w :: 0 <= w < |s.workers| && w != v ==> s.workers[w].phase.Dequeuing?
  }

  lemma {:induction false} OthersGather(s0: State, s: State, v: nat) returns (t: State)
    requires Leads(s0, s) && Awaiting(s) && s.queue == [] && v < |s.workers|
    ensures Leads(s0, t) && Awaiting(t) && t.queue == [] && OthersDequeue(t, v)
    ensures |t.workers| == |s.workers| && t.workers[v] == s.workers[v]
    ensures t.accepted == s.accepted && t.cap == s.cap && t.tasks == s.tasks
    decreases Measure(s, 0)
  {
    hide Apply, Enabled, Measure, Inv;
    if OthersDequeue(s, v) {
      t := s;
    } else {
      var w :| 0 <= w < |s.workers| && w != v && !s.workers[w].phase.Dequeuing?;
      ClosingWorkerStep(s, w);
      LeadsStep(s0, s, NextOf(s.workers[w].phase, w));
      t := OthersGather(s0, Apply(s, NextOf(s.workers[w].phase, w)), v);
    }
  }

  // The tokens go out one by one; every one but the last is taken at once by a worker other than v.
  lemma {:induction false} TokensGoOut(s0: State, s: State, v: nat, i: nat) returns (t: State)
    requires Leads(s0, s) && Inv(s) && s.owner.Sending? && s.owner.tokens < s.tasks && s.cap >= 1
    requires s.queue == [] && Slack(s) == 1 && v < |s.workers| && Holds(s.workers[v].phase, i)
    ensures Leads(s0, t) && Inv(t) && t.owner == Sending(t.tasks) && t.tasks == s.tasks
    ensures |t.workers| == |s.workers| && t.workers[v] == s.workers[v]
    decreases s.tasks - s.owner.tokens
  {
    LeadsStep(s0, s, SendToken);
    t := Apply(s, SendToken);
    InvKept(s, SendToken);
    SlackKept(s, SendToken);
    if t.owner.tokens < t.tasks {
      assert |Dequeuers(t)| > 0;
      var w :| w in Dequeuers(t);
      LeadsStep(s0, t, Take(w));
      InvKept(t, Take(w));
      SlackKept(t, Take(w));
      t := TokensGoOut(s0, Apply(t, Take(w)), v, i);
    }
  }

  lemma SlackOfOne(s: State, v: nat)
    requires Inv(s) && s.owner == Sending(0) && s.queue == [] && v < |s.workers|
    requires OthersDequeue(s, v) && !s.workers[v].phase.Dequeuing?
    ensures Slack(s) == 1
  {
    assert Dequeuers(s) == Below(s.tasks) - {v};
  }

  // With worker v busy with command i, shutdown goes on to its end without it.
  lemma ReturnsWithout(s0: State, s: State, v: nat, i: nat) returns (t: State)
    requires Leads(s0, s) && Awaiting(s) && s.queue == [] && s.cap >= 1
    requires v < |s.workers| && Holds(s.workers[v].phase, i)
    ensures Leads(s0, t) && Inv(t) && t.owner == Sending(t.tasks) && t.tasks == s.tasks
    ensures |t.workers| == |s.workers| && t.workers[v] == s.workers[v] && !Finished(t, i)
  {
    t := OthersGather(s0, s, v);
    LeadsStep(s0, t, SeeEmpty);
    InvKept(t, SeeEmpty);
    t := Apply(t, SeeEmpty);
    LeadsStep(s0, t, StoreStop);
    InvKept(t, StoreStop);
    t := Apply(t, StoreStop);
    SlackOfOne(t, v);
    t := TokensGoOut(s0, t, v, i);
    assert WorkerOk(t, v);
  }

  // Unless everything accepted was finished, shutdown can return before it is.
  lemma ReturnsUnfinished(s: State, i: nat) returns (t: State, j: nat)
    requires Awaiting(s) && s.cap >= 1 && i < |s.accepted| && !Finished(s, i)
    ensures Leads(s, t) && Inv(t) && t.owner == Sending(t.tasks) && j < |s.accepted| && !Finished(t, j)
  {
    LeadsStart(s);
    if s.queue == [] {
      j := i;
      t := ReturnsWithout(s, s, s.taker[i], i);
    } else {
      j := |s.accepted| - 1;
      t := TakesAll(s, s);
      t := ReturnsWithout(s, t, 0, j);
    }
  }

  lemma {:induction false} FinishedAlongRun(s: State, steps: seq<Step>, i: nat)
    requires Finished(s, i) && CanRun(s, steps)
    ensures Finished(Run(s, steps), i)
    decreases |steps|
  {
    hide Apply, Enabled, Finished;
    if steps != [] {
      FinishedKept(s, steps[0], i);
      FinishedAlongRun(Apply(s, steps[0]), steps[1..], i);
    }
  }

  // Exactly when a caller may take the return of a CompletePending shutdown for completion: when
  // everything accepted had been executed before the call already.
  lemma CompleteAtReturnIff(s: State)
    requires Reachable(s) && Enabled(s, Close) && s.mode.CompletePending? && s.cap >= 1 && s.tasks >= 1
    ensures
      (forall t :: Leads(Apply(s, Close), t) && t.owner == Sending(t.tasks) ==> AllExecuted(t, |s.accepted|))
      <==> AllExecuted(s, |s.accepted|)
  {
    var n := |s.accepted|;
    var u := Apply(s, Close);
    ReachableInv(s);
    InvKept(s, Close);
    ExecutedIffFinished(s, n);
    if AllFinished(s, n) {
      forall t | Leads(u, t) ensures AllExecuted(t, n) {
        var steps :| CanRun(u, steps) && Run(u, steps) == t;
        InvAlongRun(u, steps);
        forall i: nat | i < n ensures Finished(t, i) {
          FinishedKept(s, Close, i);
          FinishedAlongRun(u, steps, i);
        }
        ExecutedIffFinished(t, n);
      }
    } else {
      var i: nat :| i < n && !Finished(s, i);
      var t, j := ReturnsUnfinished(u, i);
      ExecutedIffFinished(t, n);
    }
  }

  // One way to be sure: nothing was submitted after the last barrier command of a returned in_all_threads.
  lemma FlushedThenComplete(s: State, c: nat)
    requires Reachable(s) && CallIn(s, c, Returned) && |s.accepted| > 0 && |s.accepted| - 1 in s.calls[c].tickets
    ensures AllExecuted(s, |s.accepted|)
  {
    FullFlush(s, c);
  }

  lemma {:induction false} ClosedAlongRun(s: State, steps: seq<Step>)
    requires !s.owner.Open? && CanRun(s, steps)
    ensures var t := Run(s, steps);
      t.closedAt == s.closedAt && !t.owner.Open? && |s.taker| <= |t.taker| && |s.accepted| <= |t.accepted| && t.accepted[..|s.accepted|] == s.accepted
    decreases |steps|
  {
    if steps != [] {
      ClosedStays(s, steps[0]);
      StepGrows(s, steps[0]);
      ClosedAlongRun(Apply(s, steps[0]), steps[1..]);
    }
  }

  // In any pool shutdown can return while a command accepted before it is executing.
  lemma ShutdownReturnsEarly(cap: nat, tasks: nat, work: Command) returns (s: State)
    requires cap >= 1 && tasks >= 1 && work.Work?
    ensures Leads(Init(cap, tasks, CompletePending), s) && s.owner == Sending(tasks)
    ensures s.closedAt == 1 <= |s.accepted| && s.accepted[0] == work && !AllExecuted(s, 1)
  {
    var s0 := Init(cap, tasks, CompletePending);
    LeadsStart(s0);
    LeadsStep(s0, s0, Submit(work));
    var s1 := Apply(s0, Submit(work));
    LeadsStep(s0, s1, Close);
    var s2 := Apply(s1, Close);
    ReachableInv(s2);
    assert Awaiting(s2) && !Finished(s2, 0) && s2.accepted[0] == work && s2.closedAt == 1;
    hide Apply, Enabled, Inv;
    var i;
    s, i := ReturnsUnfinished(s2, 0);
    var steps :| CanRun(s2, steps) && Run(s2, steps) == s;
    ClosedAlongRun(s2, steps);
    ConstantsAlongRun(s2, steps);
    LeadsTrans(s0, s2, s);
    ExecutedIffFinished(s, 1);
  }

  // Immediate

  // Between the stop and the end of join exactly the workers that were inside dequeue take one more
  // command each.
  lemma TakenAfterStop(s: State, t: State)
    requires Reachable(s) && s.stopped && Leads(s, t) && Joined(t)
    ensures |t.taker| == |s.taker| + |Dequeuers(s)|
  {
    ReachableShutdownOk(s);
    var steps :| CanRun(s, steps) && Run(s, steps) == t;
    SlackConserved(s, steps);
    ShutdownOkAlongRun(s, steps);
    ClosedAlongRun(s, steps);
    JoinedSlack(t);
  }

  // How many of the first n commands have been taken.
  function TakenOf(s: State, n: nat): nat {
    if |s.taker| < n then |s.taker| else n
  }

  lemma {:induction false} GoesToDequeue(s0: State, s: State, w: nat) returns (t: State)
    requires Leads(s0, s) && Closing(s) && w < |s.workers|
    ensures Leads(s0, t) && Closing(t) && t.owner == s.owner && |t.workers| == |s.workers|
    ensures t.workers[w].phase.Dequeuing? && t.queue == s.queue && t.accepted == s.accepted && t.taker == s.taker
    decreases Measure(s, 0)
  {
    hide Apply, Enabled, Measure, Inv;
    if s.workers[w].phase.Dequeuing? {
      t := s;
    } else {
      ClosingWorkerStep(s, w);
      LeadsStep(s0, s, NextOf(s.workers[w].phase, w));
      t := GoesToDequeue(s0, Apply(s, NextOf(s.workers[w].phase, w)), w);
    }
  }

  // A pending command is taken after the stop.
  lemma TakesAfterStop(s: State) returns (u: State, t: State)
    requires Closing(s) && s.owner.Storing? && s.queue != []
    ensures Leads(s, u) && u.owner.Storing? && Leads(Apply(u, StoreStop), t)
    ensures |u.taker| < |s.accepted| && |t.taker| == |u.taker| + 1
  {
    LeadsStart(s);
    u := GoesToDequeue(s, s, 0);
    var v := Apply(u, StoreStop);
    LeadsStart(v);
    LeadsStep(v, v, Take(0));
    t := Apply(v, Take(0));
  }

  // Exactly when an Immediate shutdown is sure to begin no pending command after it has set `stopped`:
  // when none is pending at the call.
  lemma NothingBegunIff(s: State)
    requires Reachable(s) && Enabled(s, Close) && s.mode.Immediate? && s.tasks >= 1
    ensures
      (forall u, t :: Leads(Apply(s, Close), u) && u.owner.Storing? && Leads(Apply(u, StoreStop), t) ==>
         TakenOf(t, |s.accepted|) == TakenOf(u, |s.accepted|))
      <==> s.queue == []
  {
    var c := Apply(s, Close);
    ReachableInv(s);
    InvKept(s, Close);
    if s.queue == [] {
      forall u, t | Leads(c, u) && u.owner.Storing? && Leads(Apply(u, StoreStop), t)
        ensures TakenOf(t, |s.accepted|) == TakenOf(u, |s.accepted|)
      {
        var xs :| CanRun(c, xs) && Run(c, xs) == u;
        ClosedAlongRun(c, xs);
        var ys :| CanRun(Apply(u, StoreStop), ys) && Run(Apply(u, StoreStop), ys) == t;
        ClosedAlongRun(Apply(u, StoreStop), ys);
      }
    } else {
      var u, t := TakesAfterStop(c);
      assert Leads(Apply(s, Close), u) && Leads(Apply(u, StoreStop), t);
      assert TakenOf(t, |s.accepted|) == TakenOf(u, |s.accepted|) + 1;
    }
  }
}
