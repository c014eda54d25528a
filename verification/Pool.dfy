// The thread pool protocol as a transition system over an atomic bounded queue.
//
// A command is known by its submission number: `accepted[i]` is the i-th command ever put into
// the queue, and the queue holds submission numbers. `taker` and the workers' logs are history:
// `taker[i]` is the worker that dequeued command i, and a worker's log lists the commands it has
// finished, in order (a barrier command is logged when its function is done, before the wait).
module Pool {

  import opened Wrappers

  datatype Outcome = Ok | Err(message: int)

  // What the function passed to in_all_threads does to the thread-local state.
  datatype Body = SetSlot(value: int) | Collect | Plain

  datatype Command =
    | Work(payload: set<int>, outcome: Outcome)
    | InAll(call: nat)
    | Empty

  datatype Phase =
    | CheckStop                // about to read `stopped`
    | Dequeuing                // inside queue.dequeue()
    | Executing(i: nat)        // inside execute() of a submitted command or an EmptyCommand
    | Entering(i: nat)         // about to lock f's mutex (in_all_threads_mut) or to call f
    | InBody(i: nat)           // running f
    | Arriving(i: nat)         // f is done and its mutex released; about to call b.wait()
    | AtBarrier(i: nat)        // inside b.wait()
    | Exited

  datatype Worker = Worker(phase: Phase, log: seq<nat>, r: Outcome)

  datatype Caller = Submitting | Waiting | Returned

  // One call of in_all_threads or in_all_threads_mut.
  datatype Call = Call(
    mutexed: bool,
    body: Body,
    tickets: seq<nat>,         // submission numbers of the barrier commands sent so far
    arrivals: nat,             // calls of b.wait() so far, the caller's included
    caller: Caller,
    holder: Option<nat>)       // the worker that holds f's mutex

  datatype Mode = Immediate | CompletePending

  datatype Owner =
    | Open
    | AwaitEmpty               // shutdown: inside queue.wait_empty
    | Storing                  // shutdown: about to set `stopped`
    | Sending(tokens: nat)     // shutdown: this many EmptyCommands sent; shutdown is over at `tasks`
    | Joining(left: nat, errors: seq<int>)

  datatype State = State(
    cap: nat,
    tasks: nat,
    mode: Mode,
    queue: seq<nat>,
    accepted: seq<Command>,
    taker: seq<nat>,
    workers: seq<Worker>,
    calls: seq<Call>,
    stopped: bool,
    owner: Owner,
    closedAt: nat)             // |accepted| when shutdown began

  function Init(cap: nat, tasks: nat, mode: Mode): State {
    State(cap, tasks, mode, [], [], [], seq(tasks, _ => Worker(CheckStop, [], Ok)), [], false, Open, 0)
  }

  datatype Step =
    | Submit(work: Command)
    | StartCall(mutexed: bool, body: Body)
    | SendTicket(c: nat)
    | CallerArrive(c: nat)
    | CallerReturn(c: nat)
    | Check(w: nat)
    | Take(w: nat)
    | Finish(w: nat)
    | Enter(w: nat)
    | EndBody(w: nat)
    | Arrive(w: nat)
    | Leave(w: nat)
    | Close
    | SeeEmpty
    | StoreStop
    | SendToken
    | BeginJoin
    | JoinOne
  {
    predicate ByWorker() {
      Check? || Take? || Finish? || Enter? || EndBody? || Arrive? || Leave?
    }

    // Steps taken from outside at any time, as opposed to steps that carry on something begun.
    predicate External() {
      Submit? || StartCall?
    }
  }

  predicate Released(s: State, c: nat)
    requires c < |s.calls|
  {
    s.calls[c].arrivals > s.tasks
  }

  // The call whose barrier command is number i.
  predicate ForCall(s: State, i: nat, c: nat) {
    i < |s.accepted| && s.accepted[i] == InAll(c)
  }

  predicate Barred(s: State, i: nat) {
    i < |s.accepted| && s.accepted[i].InAll? && s.accepted[i].call < |s.calls|
  }

  predicate CallIn(s: State, c: nat, p: Caller) {
    c < |s.calls| && s.calls[c].caller == p
  }

  predicate Enabled(s: State, st: Step) {
    match st
    case Submit(work) => s.owner.Open? && work.Work? && |s.queue| < s.cap
    case StartCall(_, _) => s.owner.Open?
    case SendTicket(c) =>
      s.owner.Open? && CallIn(s, c, Submitting) && |s.calls[c].tickets| < s.tasks && |s.queue| < s.cap
    case CallerArrive(c) => CallIn(s, c, Submitting) && |s.calls[c].tickets| == s.tasks
    case CallerReturn(c) => CallIn(s, c, Waiting) && Released(s, c)
    case Check(w) => w < |s.workers| && s.workers[w].phase.CheckStop?
    case Take(w) => w < |s.workers| && s.workers[w].phase.Dequeuing? && s.queue != [] && s.queue[0] < |s.accepted|
    case Finish(w) =>
      w < |s.workers| && s.workers[w].phase.Executing? && s.workers[w].phase.i < |s.accepted|
    case Enter(w) =>
      w < |s.workers| && s.workers[w].phase.Entering? && Barred(s, s.workers[w].phase.i) &&
      var call := s.calls[s.accepted[s.workers[w].phase.i].call];
      call.mutexed ==> call.holder.None?
    case EndBody(w) => w < |s.workers| && s.workers[w].phase.InBody? && Barred(s, s.workers[w].phase.i)
    case Arrive(w) => w < |s.workers| && s.workers[w].phase.Arriving? && Barred(s, s.workers[w].phase.i)
    case Leave(w) =>
      w < |s.workers| && s.workers[w].phase.AtBarrier? && Barred(s, s.workers[w].phase.i) &&
      Released(s, s.accepted[s.workers[w].phase.i].call)
    // shutdown takes &mut self: no call of in_all_threads is in progress
    case Close => s.owner.Open? && forall c :: 0 <= c < |s.calls| ==> s.calls[c].caller.Returned?
    case SeeEmpty => s.owner.AwaitEmpty? && s.queue == []
    case StoreStop => s.owner.Storing?
    case SendToken => s.owner.Sending? && s.owner.tokens < s.tasks && |s.queue| < s.cap
    case BeginJoin => s.owner.Sending? && s.owner.tokens == s.tasks
    case JoinOne =>
      s.owner.Joining? && 0 < s.owner.left <= |s.workers| && s.workers[s.owner.left - 1].phase.Exited?
  }

  function Enqueue(s: State, command: Command): State {
    s.(queue := s.queue + [|s.accepted|], accepted := s.accepted + [command])
  }

  function SetWorker(s: State, w: nat, worker: Worker): State
    requires w < |s.workers|
  {
    s.(workers := s.workers[w := worker])
  }

  function SetPhase(s: State, w: nat, p: Phase): State
    requires w < |s.workers|
  {
    SetWorker(s, w, s.workers[w].(phase := p))
  }

  function SetCall(s: State, c: nat, call: Call): State
    requires c < |s.calls|
  {
    s.(calls := s.calls[c := call])
  }

  function OutcomeOf(command: Command): Outcome {
    if command.Work? then command.outcome else Ok
  }

  // r of create_thread: overwritten by an error, kept otherwise.
  function Overwrite(r: Outcome, o: Outcome): Outcome {
    if o.Err? then o else r
  }

  function Apply(s: State, st: Step): State
    requires Enabled(s, st)
  {
    match st
    case Submit(work) => Enqueue(s, work)
    case StartCall(mutexed, body) => s.(calls := s.calls + [Call(mutexed, body, [], 0, Submitting, None)])
    case SendTicket(c) =>
      SetCall(Enqueue(s, InAll(c)), c, s.calls[c].(tickets := s.calls[c].tickets + [|s.accepted|]))
    case CallerArrive(c) =>
      SetCall(s, c, s.calls[c].(caller := Waiting, arrivals := s.calls[c].arrivals + 1))
    case CallerReturn(c) => SetCall(s, c, s.calls[c].(caller := Returned))
    case Check(w) => SetPhase(s, w, if s.stopped then Exited else Dequeuing)
    case Take(w) =>
      var i := s.queue[0];
      SetPhase(s.(queue := s.queue[1..], taker := s.taker + [w]), w,
               if s.accepted[i].InAll? then Entering(i) else Executing(i))
    case Finish(w) =>
      var worker := s.workers[w];
      var i := worker.phase.i;
      SetWorker(s, w, Worker(CheckStop, worker.log + [i], Overwrite(worker.r, OutcomeOf(s.accepted[i]))))
    case Enter(w) =>
      var i := s.workers[w].phase.i;
      var c := s.accepted[i].call;
      SetCall(SetPhase(s, w, InBody(i)), c,
              if s.calls[c].mutexed then s.calls[c].(holder := Some(w)) else s.calls[c])
    case EndBody(w) =>
      var worker := s.workers[w];
      var i := worker.phase.i;
      var c := s.accepted[i].call;
      SetCall(SetWorker(s, w, worker.(phase := Arriving(i), log := worker.log + [i])), c,
              s.calls[c].(holder := None))
    case Arrive(w) =>
      var i := s.workers[w].phase.i;
      var c := s.accepted[i].call;
      SetCall(SetPhase(s, w, AtBarrier(i)), c, s.calls[c].(arrivals := s.calls[c].arrivals + 1))
    case Leave(w) => SetPhase(s, w, CheckStop)
    case Close =>
      s.(owner := if s.mode.Immediate? then Storing else AwaitEmpty, closedAt := |s.accepted|)
    case SeeEmpty => s.(owner := Storing)
    case StoreStop => s.(stopped := true, owner := Sending(0))
    case SendToken => Enqueue(s, Empty).(owner := Sending(s.owner.tokens + 1))
    case BeginJoin => s.(owner := Joining(s.tasks, []))
    case JoinOne =>
      var r := s.workers[s.owner.left - 1].r;
      s.(owner := Joining(s.owner.left - 1, if r.Err? then s.owner.errors + [r.message] else s.owner.errors))
  }

  predicate Joined(s: State) {
    s.owner.Joining? && s.owner.left == 0
  }

  // Runs

  predicate CanRun(s: State, steps: seq<Step>)
    decreases |steps|
  {
    steps == [] || (Enabled(s, steps[0]) && CanRun(Apply(s, steps[0]), steps[1..]))
  }

  function Run(s: State, steps: seq<Step>): State
    requires CanRun(s, steps)
    decreases |steps|
  {
    if steps == [] then s else Run(Apply(s, steps[0]), steps[1..])
  }

  ghost predicate Leads(s: State, t: State) {
    exists steps :: CanRun(s, steps) && Run(s, steps) == t
  }

  ghost predicate Reachable(s: State) {
    Leads(Init(s.cap, s.tasks, s.mode), s)
  }

  lemma {:induction false} RunAppend(s: State, xs: seq<Step>, ys: seq<Step>)
    requires CanRun(s, xs) && CanRun(Run(s, xs), ys)
    ensures CanRun(s, xs + ys) && Run(s, xs + ys) == Run(Run(s, xs), ys)
    decreases |xs|
  {
    hide Apply, Enabled;
    if xs == [] {
      assert xs + ys == ys;
    } else {
      RunAppend(Apply(s, xs[0]), xs[1..], ys);
      assert (xs + ys)[1..] == xs[1..] + ys;
    }
  }

  lemma RunOneMore(s: State, xs: seq<Step>, st: Step)
    requires CanRun(s, xs) && Enabled(Run(s, xs), st)
    ensures CanRun(s, xs + [st]) && Run(s, xs + [st]) == Apply(Run(s, xs), st)
  {
    hide Apply, Enabled;
    var t := Run(s, xs);
    assert [st][1..] == [];
    assert CanRun(Apply(t, st), [st][1..]);
    assert CanRun(t, [st]) && Run(t, [st]) == Run(Apply(t, st), [st][1..]);
    RunAppend(s, xs, [st]);
  }

  lemma LeadsStart(s: State)
    ensures Leads(s, s)
  {
    assert CanRun(s, []) && Run(s, []) == s;
  }

  lemma LeadsStep(s: State, t: State, st: Step)
    requires Leads(s, t) && Enabled(t, st)
    ensures Leads(s, Apply(t, st))
  {
    var steps :| CanRun(s, steps) && Run(s, steps) == t;
    RunOneMore(s, steps, st);
  }

  lemma LeadsTrans(s: State, t: State, u: State)
    requires Leads(s, t) && Leads(t, u)
    ensures Leads(s, u)
  {
    var xs :| CanRun(s, xs) && Run(s, xs) == t;
    var ys :| CanRun(t, ys) && Run(t, ys) == u;
    RunAppend(s, xs, ys);
  }
}
