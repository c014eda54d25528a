// Which errors join reports.
module PoolErrors {

  import opened Pool
  import opened PoolInvariant
  import opened PoolSafety
  import opened PoolShutdown

  // Command i is a submitted command whose execute() returns an error.
  predicate Fails(accepted: seq<Command>, i: nat) {
    i < |accepted| && accepted[i].Work? && accepted[i].outcome.Err?
  }

  // The outcome of the last failing command of a log, or Ok.
  function LastError(accepted: seq<Command>, log: seq<nat>): Outcome {
    if log == [] then Ok
    else if Fails(accepted, log[|log| - 1]) then accepted[log[|log| - 1]].outcome
    else LastError(accepted, log[..|log| - 1])
  }

  predicate Within(log: seq<nat>, n: nat) {
    forall j :: 0 <= j < |log| ==> log[j] < n
  }

  lemma {:induction false} LastErrorGrows(accepted: seq<Command>, more: seq<Command>, log: seq<nat>)
    requires Within(log, |accepted|)
    ensures LastError(accepted + more, log) == LastError(accepted, log)
    decreases |log|
  {
    if log != [] {
      LastErrorGrows(accepted, more, log[..|log| - 1]);
    }
  }

  // Position j of the log is its last failing command.
  ghost predicate LastFailure(accepted: seq<Command>, log: seq<nat>, j: nat) {
    j < |log| && Fails(accepted, log[j]) && forall k :: j < k < |log| ==> !Fails(accepted, log[k])
  }

  lemma {:induction false} LastErrorMeaning(accepted: seq<Command>, log: seq<nat>)
    ensures LastError(accepted, log).Ok? <==> forall j :: 0 <= j < |log| ==> !Fails(accepted, log[j])
    ensures forall j: nat :: LastFailure(accepted, log, j) ==> LastError(accepted, log) == accepted[log[j]].outcome
    decreases |log|
  {
    if log != [] {
      var front := log[..|log| - 1];
      LastErrorMeaning(accepted, front);
      if !Fails(accepted, log[|log| - 1]) {
        assert forall j: nat :: j < |front| ==> front[j] == log[j];
        forall j: nat | LastFailure(accepted, log, j) ensures LastFailure(accepted, front, j) {
        }
      }
    }
  }

  // The last errors of the workers from number w up, the one created last first.
  function Report(s: State, w: nat): seq<int>
    decreases |s.workers| - w
  {
    if w >= |s.workers| then []
    else
      var last := LastError(s.accepted, s.workers[w].log);
      Report(s, w + 1) + if last.Err? then [last.message] else []
  }

  ghost predicate ErrorsOk(s: State) {
    && (forall w :: 0 <= w < |s.workers| ==> s.workers[w].r == LastError(s.accepted, s.workers[w].log))
    && (s.owner.Joining? ==> s.owner.errors == Report(s, s.owner.left))
  }

  lemma {:induction false} ReportSame(s: State, t: State, w: nat)
    requires |s.workers| == |t.workers|
    requires forall v :: w <= v < |s.workers| ==>
      LastError(s.accepted, s.workers[v].log) == LastError(t.accepted, t.workers[v].log)
    ensures Report(s, w) == Report(t, w)
    decreases |s.workers| - w
  {
    if w < |s.workers| {
      ReportSame(s, t, w + 1);
    }
  }

  // A step logs at most one more command of a worker, and overwrites its result by an error only.
  lemma ResultStep(s: State, st: Step, w: nat)
    requires Inv(s) && Enabled(s, st) && w < |s.workers|
    ensures var t := Apply(s, st);
      && |t.workers| == |s.workers|
      && |s.accepted| <= |t.accepted| && t.accepted[..|s.accepted|] == s.accepted
      && (t.workers[w].log == s.workers[w].log ==> t.workers[w].r == s.workers[w].r)
      && (t.workers[w].log != s.workers[w].log ==> exists i ::
            && 0 <= i < |s.accepted| && t.workers[w].log == s.workers[w].log + [i]
            && t.workers[w].r == Overwrite(s.workers[w].r, OutcomeOf(s.accepted[i])))
  {
    assert WorkerOk(s, w);
  }

  lemma ResultKept(s: State, st: Step, w: nat)
    requires Inv(s) && ErrorsOk(s) && Enabled(s, st) && w < |s.workers|
    ensures var t := Apply(s, st);
      && t.workers[w].r == LastError(t.accepted, t.workers[w].log)
      && (t.workers[w].log == s.workers[w].log ==>
            LastError(t.accepted, t.workers[w].log) == LastError(s.accepted, s.workers[w].log))
  {
    hide Apply, Enabled, Accounted, MutexOk, BarriersOk, TicketsOk, OwnerOk;
    var t := Apply(s, st);
    assert WorkerOk(s, w);
    var log := s.workers[w].log;
    assert forall j :: 0 <= j < |log| ==> log[j] in log;
    ResultStep(s, st, w);
    LastErrorGrows(s.accepted, t.accepted[|s.accepted|..], log);
    assert t.accepted == s.accepted + t.accepted[|s.accepted|..];
    if t.workers[w].log != log {
      assert t.workers[w].log[..|log|] == log;
    }
  }

  // A step while join is running: joined threads stay as they were left.
  lemma JoiningStep(s: State, st: Step)
    requires Inv(s) && WorkersGone(s) && Enabled(s, st) && s.owner.Joining?
    ensures var t := Apply(s, st);
      && t.owner.Joining? && |t.workers| == |s.workers|
      && (forall w :: s.owner.left <= w < |s.workers| ==> t.workers[w].log == s.workers[w].log)
      && (!st.JoinOne? ==> t.owner == s.owner)
      && (st.JoinOne? ==>
            && 0 < s.owner.left <= |s.workers| && t.owner.left == s.owner.left - 1 && t.workers == s.workers
            && t.owner.errors == s.owner.errors + (var r := s.workers[t.owner.left].r; if r.Err? then [r.message] else []))
  {
  }

  lemma ReportKept(s: State, st: Step)
    requires Inv(s) && WorkersGone(s) && ErrorsOk(s) && Enabled(s, st) && s.owner.Joining?
    ensures Apply(s, st).owner.Joining? && Apply(s, st).owner.errors == Report(Apply(s, st), Apply(s, st).owner.left)
  {
    JoiningStep(s, st);
    hide Apply, Enabled, Inv, WorkersGone;
    var t := Apply(s, st);
    forall w | s.owner.left <= w < |s.workers|
      ensures LastError(s.accepted, s.workers[w].log) == LastError(t.accepted, t.workers[w].log)
    {
      ResultKept(s, st, w);
    }
    ReportSame(s, t, s.owner.left);
    if st.JoinOne? {
      ResultKept(s, st, t.owner.left);
    }
  }

  lemma ErrorsKept(s: State, st: Step)
    requires Inv(s) && WorkersGone(s) && ErrorsOk(s) && Enabled(s, st)
    ensures ErrorsOk(Apply(s, st))
  {
    forall w | 0 <= w < |s.workers|
      ensures Apply(s, st).workers[w].r == LastError(Apply(s, st).accepted, Apply(s, st).workers[w].log)
    {
      ResultKept(s, st, w);
    }
    if s.owner.Joining? {
      ReportKept(s, st);
    }
  }

  lemma {:induction false} ErrorsAlongRun(s: State, steps: seq<Step>)
    requires Inv(s) && WorkersGone(s) && ErrorsOk(s) && CanRun(s, steps)
    ensures ErrorsOk(Run(s, steps))
    decreases |steps|
  {
    hide Apply, Enabled, Inv, ErrorsOk, WorkersGone;
    if steps != [] {
      InvKept(s, steps[0]);
      WorkersGoneKept(s, steps[0]);
      ErrorsKept(s, steps[0]);
      ErrorsAlongRun(Apply(s, steps[0]), steps[1..]);
    }
  }

  lemma {:induction false} ReportEmpty(s: State, w: nat)
    ensures Report(s, w) != [] <==>
      exists v :: w <= v < |s.workers| && LastError(s.accepted, s.workers[v].log).Err?
    decreases |s.workers| - w
  {
    hide LastError;
    if w < |s.workers| {
      ReportEmpty(s, w + 1);
    }
  }

  // The last command of worker w that failed returned this error.
  ghost predicate LastMessage(s: State, w: nat, message: int) {
    w < |s.workers| && exists j: nat ::
      LastFailure(s.accepted, s.workers[w].log, j) && s.accepted[s.workers[w].log[j]].outcome == Err(message)
  }

  ghost predicate Decreasing(ws: seq<nat>) {
    forall i, j :: 0 <= i < j < |ws| ==> ws[i] > ws[j]
  }

  // Worker w has run a failing command.
  ghost predicate HasFailed(s: State, w: nat) {
    w < |s.workers| && exists j: nat :: LastFailure(s.accepted, s.workers[w].log, j)
  }

  // ws are the workers from number `from` on that have run a failing command, the one created last first,
  // and the errors are the last ones of these workers.
  ghost predicate ReportOf(s: State, ws: seq<nat>, errors: seq<int>, from: nat) {
    && Decreasing(ws) && |ws| == |errors|
    && (forall w: nat :: w in ws <==> from <= w && HasFailed(s, w))
    && (forall k :: 0 <= k < |ws| ==> LastMessage(s, ws[k], errors[k]))
  }

  ghost predicate ReportedFrom(s: State, errors: seq<int>, from: nat) {
    exists ws :: ReportOf(s, ws, errors, from)
  }

  // One error for each worker that has run a failing command, the last of them, in reverse creation order.
  ghost predicate Reported(s: State, errors: seq<int>) {
    ReportedFrom(s, errors, 0)
  }

  // A log with a failing command has a last one.
  lemma {:induction false} LastFailureExists(accepted: seq<Command>, log: seq<nat>)
    requires exists j :: 0 <= j < |log| && Fails(accepted, log[j])
    ensures exists j: nat :: LastFailure(accepted, log, j)
    decreases |log|
  {
    var front := log[..|log| - 1];
    if Fails(accepted, log[|log| - 1]) {
      assert LastFailure(accepted, log, |log| - 1);
    } else {
      assert exists j :: 0 <= j < |front| && Fails(accepted, front[j]);
      LastFailureExists(accepted, front);
      var j: nat :| LastFailure(accepted, front, j);
      assert LastFailure(accepted, log, j);
    }
  }

  lemma {:induction false} ReportIsReported(s: State, from: nat)
    ensures ReportedFrom(s, Report(s, from), from)
    decreases |s.workers| - from
  {
    if from >= |s.workers| {
      assert ReportOf(s, [], Report(s, from), from);
    } else {
      ReportIsReported(s, from + 1);
      var ws :| ReportOf(s, ws, Report(s, from + 1), from + 1);
      OneMoreReported(s, from, ws);
    }
  }

  lemma OneMoreReported(s: State, from: nat, ws: seq<nat>)
    requires from < |s.workers| && ReportOf(s, ws, Report(s, from + 1), from + 1)
    ensures ReportedFrom(s, Report(s, from), from)
  {
    var last := LastError(s.accepted, s.workers[from].log);
    OwnReport(s, from);
    hide LastError, Report, LastMessage, HasFailed;
    if last.Err? {
      OneMoreListed(s, from, ws, Report(s, from + 1), last.message);
      assert ReportOf(s, ws + [from], Report(s, from), from);
    } else {
      assert ReportOf(s, ws, Report(s, from), from);
    }
  }

  lemma OneMoreListed(s: State, from: nat, ws: seq<nat>, errors: seq<int>, message: int)
    requires ReportOf(s, ws, errors, from + 1) && HasFailed(s, from) && LastMessage(s, from, message)
    ensures ReportOf(s, ws + [from], errors + [message], from)
  {
    hide LastMessage, HasFailed;
    assert forall k :: 0 <= k < |ws| ==> ws[k] in ws;
    assert forall w: nat :: w in ws + [from] <==> w in ws || w == from;
  }

  lemma OwnReport(s: State, w: nat)
    requires w < |s.workers|
    ensures var last := LastError(s.accepted, s.workers[w].log);
      && Report(s, w) == Report(s, w + 1) + (if last.Err? then [last.message] else [])
      && (HasFailed(s, w) <==> last.Err?) && (last.Err? ==> LastMessage(s, w, last.message))
  {
    var log := s.workers[w].log;
    LastErrorMeaning(s.accepted, log);
    if LastError(s.accepted, log).Err? {
      LastFailureExists(s.accepted, log);
    }
  }

  // What join returns: the last error of each failing worker, in reverse creation order, and an
  // error at all exactly when some executed command returned one.
  lemma JoinReport(s: State)
    requires Reachable(s) && Joined(s)
    ensures Reported(s, s.owner.errors)
    ensures s.owner.errors != [] <==>
      exists i: nat :: i < |s.accepted| && s.accepted[i].Work? && s.accepted[i].outcome.Err? && |Executions(s, i)| == 1
  {
    ReportIsReported(s, 0);
    ReachableShutdownOk(s);
    var s0 := Init(s.cap, s.tasks, s.mode);
    var steps :| CanRun(s0, steps) && Run(s0, steps) == s;
    InvInit(s.cap, s.tasks, s.mode);
    ErrorsAlongRun(s0, steps);
    ReportEmpty(s, 0);
    if w :| 0 <= w < |s.workers| && LastError(s.accepted, s.workers[w].log).Err? {
      LastErrorMeaning(s.accepted, s.workers[w].log);
      var j :| 0 <= j < |s.workers[w].log| && Fails(s.accepted, s.workers[w].log[j]);
      LoggedIsFinished(s, w, j);
      ExecutionPlace(s, s.workers[w].log[j]);
    } else {
      forall i: nat | Fails(s.accepted, i) ensures |Executions(s, i)| != 1 {
        NeverTwice(s, i);
        if Finished(s, i) {
          LastErrorMeaning(s.accepted, s.workers[s.taker[i]].log);
        }
      }
    }
  }
}
