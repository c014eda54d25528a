// Safety of the pool over every run: order, exactly-once execution, the full flush made by
// in_all_threads, and the memory bound.
module PoolSafety {

  import opened Counting
  import opened Wrappers
  import opened Pool
  import opened PoolInvariant

  // Every place in the workers' logs where command i appears, as (worker, position).
  ghost function Executions(s: State, i: nat): set<(nat, nat)> {
    set w: nat, j: nat | w < |s.workers| && j < |s.workers[w].log| && s.workers[w].log[j] == i :: (w, j)
  }

  // Commands are taken in submission order: after k of them have been taken, the next to be taken is
  // submission number k, and the queue holds the numbers from k on.
  lemma TakenInSubmissionOrder(s: State)
    requires Reachable(s)
    ensures |s.accepted| == |s.taker| + |s.queue| && |s.queue| <= s.cap
    ensures forall j :: 0 <= j < |s.queue| ==> s.queue[j] == |s.taker| + j
    ensures forall w: nat :: Enabled(s, Take(w)) ==> Holds(Apply(s, Take(w)).workers[w].phase, |s.taker|)
  {
    ReachableInv(s);
  }

  lemma ExecutionPlace(s: State, i: nat)
    requires Inv(s) && Finished(s, i)
    ensures |Executions(s, i)| == 1
  {
    var w := s.taker[i];
    var j :| 0 <= j < |s.workers[w].log| && s.workers[w].log[j] == i;
    forall v: nat, k: nat | (v, k) in Executions(s, i) ensures v == w && k == j {
      assert WorkerOk(s, v);
      assert s.workers[v].log[k] in s.workers[v].log;
      assert Increasing(s.workers[v].log);
    }
    assert Executions(s, i) == {(w, j)};
  }

  lemma LoggedIsFinished(s: State, w: nat, k: nat)
    requires Inv(s) && w < |s.workers| && k < |s.workers[w].log|
    ensures Finished(s, s.workers[w].log[k])
  {
    assert WorkerOk(s, w);
    assert s.workers[w].log[k] in s.workers[w].log;
  }

  lemma NeverTwice(s: State, i: nat)
    requires Inv(s)
    ensures |Executions(s, i)| <= 1
    ensures |Executions(s, i)| == 1 <==> Finished(s, i)
  {
    if Finished(s, i) {
      ExecutionPlace(s, i);
    } else {
      forall v: nat, k: nat | v < |s.workers| && k < |s.workers[v].log| ensures s.workers[v].log[k] != i {
        LoggedIsFinished(s, v, k);
      }
      assert Executions(s, i) == {};
    }
  }

  // No command is ever executed twice, and nothing that is still queued has been executed.
  lemma AtMostOnce(s: State, i: nat)
    requires Reachable(s)
    ensures |Executions(s, i)| <= 1
    ensures |s.taker| <= i ==> Executions(s, i) == {}
  {
    ReachableInv(s);
    NeverTwice(s, i);
  }

  lemma AllExitedFinished(s: State)
    requires Inv(s) && Joined(s) && WorkersGone(s)
    ensures forall i :: 0 <= i < |s.taker| ==> Finished(s, i)
  {
    forall i | 0 <= i < |s.taker| ensures Finished(s, i) {
      assert s.workers[s.taker[i]].phase.Exited?;
    }
  }

  // The workers whose threads have been joined have left their loop.
  ghost predicate WorkersGone(s: State) {
    s.owner.Joining? ==> forall w :: s.owner.left <= w < |s.workers| ==> s.workers[w].phase.Exited?
  }

  lemma WorkersGoneKept(s: State, st: Step)
    requires WorkersGone(s) && Inv(s) && Enabled(s, st)
    ensures WorkersGone(Apply(s, st))
  {
  }

  lemma {:induction false} WorkersGoneAlongRun(s: State, steps: seq<Step>)
    requires WorkersGone(s) && Inv(s) && CanRun(s, steps)
    ensures WorkersGone(Run(s, steps))
    decreases |steps|
  {
    hide Apply, Enabled, Inv, WorkersGone;
    if steps != [] {
      InvKept(s, steps[0]);
      WorkersGoneKept(s, steps[0]);
      WorkersGoneAlongRun(Apply(s, steps[0]), steps[1..]);
    }
  }

  lemma ReachableGone(s: State)
    requires Reachable(s)
    ensures WorkersGone(s)
  {
    var s0 := Init(s.cap, s.tasks, s.mode);
    var steps :| CanRun(s0, steps) && Run(s0, steps) == s;
    InvInit(s.cap, s.tasks, s.mode);
    WorkersGoneAlongRun(s0, steps);
  }

  // CompletePending: when join is done every command accepted before shutdown has been executed
  // exactly once, and only EmptyCommands are left in the queue.
  lemma CompletePendingExactlyOnce(s: State)
    requires Reachable(s) && Joined(s) && s.mode.CompletePending?
    ensures s.closedAt <= |s.accepted|
    ensures forall i :: 0 <= i < s.closedAt ==> |Executions(s, i)| == 1 && !s.accepted[i].Empty?
    ensures forall j :: 0 <= j < |s.queue| ==> s.queue[j] < |s.accepted| && s.accepted[s.queue[j]].Empty?
  {
    ReachableInv(s);
    ReachableGone(s);
    AllExitedFinished(s);
    forall i | 0 <= i < s.closedAt ensures |Executions(s, i)| == 1 {
      ExecutionPlace(s, i);
    }
  }

  // Immediate (and any mode): when join is done the commands that were executed are a prefix of
  // the submission order, each exactly once, and the rest are still queued, untouched.
  lemma JoinedExecutedPrefix(s: State, i: nat)
    requires Reachable(s) && Joined(s) && i < |s.accepted|
    ensures |Executions(s, i)| == (if i < |s.taker| then 1 else 0)
    ensures i >= |s.taker| <==> i in s.queue
  {
    ReachableInv(s);
    ReachableGone(s);
    AllExitedFinished(s);
    NeverTwice(s, i);
    if i >= |s.taker| {
      assert s.queue[i - |s.taker|] == i;
    }
  }

  // The barrier commands of call c whose f worker w has completed.
  ghost function BodiesRun(s: State, c: nat, w: nat): set<nat>
    requires w < |s.workers|
  {
    set t | t in s.workers[w].log && ForCall(s, t, c)
  }

  // in_all_threads is a full flush: when it has returned, its `tasks` barrier commands were sent,
  // f was completed exactly once in every worker, and every command enqueued ahead of the last
  // barrier command has been executed, exactly once.
  lemma FullFlush(s: State, c: nat)
    requires Reachable(s) && CallIn(s, c, Returned)
    ensures |s.calls[c].tickets| == s.tasks == |s.workers|
    ensures forall w: nat :: w < |s.workers| ==> |BodiesRun(s, c, w)| == 1
    ensures forall t, i: nat :: t in s.calls[c].tickets && i <= t ==> |Executions(s, i)| == 1
  {
    ReachableInv(s);
    assert Released(s, c) && BarrierOpen(s, c);
    forall w: nat | w < |s.workers| ensures |BodiesRun(s, c, w)| == 1 {
      OneBodyEach(s, c, w);
    }
    forall t, i: nat | t in s.calls[c].tickets && i <= t ensures |Executions(s, i)| == 1 {
      assert Finished(s, i);
      ExecutionPlace(s, i);
    }
  }

  lemma OneBodyEach(s: State, c: nat, w: nat)
    requires Inv(s) && c < |s.calls| && BarrierOpen(s, c) && w < |s.workers|
    ensures |BodiesRun(s, c, w)| == 1
  {
    var t := s.calls[c].tickets[ServedIndex(s, c, w)];
    assert Finished(s, t);
    forall u | u in BodiesRun(s, c, w) ensures u == t {
      OneTicketEach(s, c, w, t, u);
    }
    assert BodiesRun(s, c, w) == {t};
  }

  // `tasks` tickets that serve `tasks` workers serve one each.
  lemma OneTicketEach(s: State, c: nat, w: nat, t: nat, u: nat)
    requires Inv(s) && c < |s.calls| && BarrierOpen(s, c) && w < |s.workers|
    requires t in BodiesRun(s, c, w) && u in BodiesRun(s, c, w)
    ensures t == u
  {
    var tickets := s.calls[c].tickets;
    assert WorkerOk(s, w);
    assert t in tickets && u in tickets;
    var js := seq(s.tasks, v requires 0 <= v < s.tasks => ServedIndex(s, c, v));
    assert Distinct(js);
    Pigeonhole(js, s.tasks);
    assert IndexIn(tickets, t) in js && IndexIn(tickets, u) in js;
  }

  ghost function ServedIndex(s: State, c: nat, w: nat): (j: nat)
    requires Inv(s) && c < |s.calls| && BarrierOpen(s, c) && w < s.tasks
    ensures j < |s.calls[c].tickets| && TakenBy(s, s.calls[c].tickets[j], w)
  {
    assert Served(s, c, w);
    var t :| t in s.calls[c].tickets && TakenBy(s, t, w);
    IndexIn(s.calls[c].tickets, t)
  }

  // The runs of f of one in_all_threads_mut call exclude each other, and a worker on its way to
  // the barrier or inside it does not hold f's mutex.
  lemma BodiesExclude(s: State, c: nat, w: nat, v: nat)
    requires Reachable(s) && c < |s.calls| && s.calls[c].mutexed
    ensures InBodyOf(s, w, c) && InBodyOf(s, v, c) ==> v == w
    ensures v < |s.workers| && (s.workers[v].phase.Arriving? || s.workers[v].phase.AtBarrier?) ==>
      s.calls[c].holder != Some(v)
  {
    ReachableInv(s);
    assert MutexFor(s, c);
  }

  // Backpressure

  // A worker's execute() of command i has begun and has not returned.
  predicate Executes(p: Phase, i: nat) {
    Holds(p, i) || Parked(p, i)
  }

  // Accepted, and its execute() has not returned; a barrier command is among them until it leaves the barrier.
  ghost function Unfinished(s: State): set<nat> {
    set i: nat | i < |s.accepted| && (!Finished(s, i) || exists w :: 0 <= w < |s.workers| && Executes(s.workers[w].phase, i))
  }

  ghost function InHands(s: State, n: nat): (held: set<nat>)
    requires n <= |s.workers|
    ensures |held| <= n
    ensures forall w, i: nat :: 0 <= w < n && Executes(s.workers[w].phase, i) ==> i in held
  {
    if n == 0 then {} else
      var p := s.workers[n - 1].phase;
      InHands(s, n - 1) + (if p.CheckStop? || p.Dequeuing? || p.Exited? then {} else {p.i})
  }

  // At most cap + tasks commands are accepted and not finished.
  lemma Backpressure(s: State)
    requires Reachable(s)
    ensures |Unfinished(s)| <= s.cap + s.tasks
  {
    ReachableInv(s);
    var held := InHands(s, |s.workers|);
    var queued := Elements(s.queue);
    assert Distinct(s.queue);
    forall i: nat | i in Unfinished(s) ensures i in held + queued {
      if i < |s.taker| {
        assert Finished(s, i) || Executes(s.workers[s.taker[i]].phase, i);
      } else {
        assert s.queue[i - |s.taker|] == i;
      }
    }
    SubsetSize(Unfinished(s), held + queued);
    assert |held + queued| <= |held| + |queued|;
  }
}
