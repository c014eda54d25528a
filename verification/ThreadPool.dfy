// The thread pool as the object its owner sees. Every method works on the fields the way
// thread_pool.rs does, one atomic action at a time, and records the step of the protocol it made;
// so whatever is proved about all runs of the protocol holds for the object.
//
// Where the caller blocks, the workers go on in the order given by `schedule`, a list of worker
// numbers; a method that is still blocked when the schedule ends says so.
module ThreadPoolObject {

  import opened Wrappers
  import opened Pool
  import opened PoolInvariant
  import opened PoolSafety
  import opened PoolShutdown
  import opened PoolCalls
  import opened PoolErrors
  import opened PoolPlay
  import Fifo

  datatype Act = ByWorker(w: nat) | ByClient(work: Command)

  // One wait for room: what the other threads do meanwhile, how long it lasts, and the time from the
  // reading of the clock at its end to that at the beginning of the next.
  datatype Wait = Wait(acts: seq<Act>, passed: nat, restart: nat)

  datatype Submission = Accepted | GivenBack(command: Command) | StillBlocked

  class ThreadPool {
    const cap: nat
    const tasks: nat
    const mode: Mode
    var queue: seq<nat>               // the commands in the queue, by submission number
    var accepted: seq<Command>
    var workers: seq<Worker>
    var calls: seq<Call>              // the barriers of in_all_threads
    var threads: seq<nat>             // join handles, in creation order
    var stopped: bool
    var expired: bool
    var clock: nat                    // Instant::now()
    ghost var taker: seq<nat>
    ghost var owner: Owner
    ghost var closedAt: nat
    ghost var trace: seq<Step>        // the steps of the protocol made so far

    ghost function Model(): State
      reads this
    {
      State(cap, tasks, mode, queue, accepted, taker, workers, calls, stopped, owner, closedAt)
    }

    ghost predicate Recorded()
      reads this
    {
      && CanRun(Init(cap, tasks, mode), trace)
      && Run(Init(cap, tasks, mode), trace) == Model()
      && (expired <==> !owner.Open?)
    }

    ghost predicate Valid()
      reads this
    {
      Recorded() && threads == Handles(if owner.Joining? then owner.left else tasks)
    }

    static function Handles(n: nat): seq<nat> {
      seq(n, i requires 0 <= i < n => i)
    }

    lemma ModelReachable()
      requires Recorded()
      ensures Reachable(Model())
    {
    }

    constructor (cap: nat, tasks: nat, mode: Mode)
      ensures Valid() && Model() == Init(cap, tasks, mode) && trace == []
    {
      this.cap, this.tasks, this.mode := cap, tasks, mode;
      queue, accepted, calls, stopped, expired := [], [], [], false, false;
      workers := seq(tasks, _ => Worker(CheckStop, [], Ok));
      clock := 0;
      threads := Handles(tasks);
      taker, owner, closedAt, trace := [], Open, 0, [];
    }

    ghost method Record(s: State, st: Step)
      requires CanRun(Init(cap, tasks, mode), trace) && Run(Init(cap, tasks, mode), trace) == s
      requires Enabled(s, st) && Model() == Apply(s, st) && (expired <==> !owner.Open?)
      modifies this`trace
      ensures Recorded() && trace == old(trace) + [st]
    {
      RunOneMore(Init(cap, tasks, mode), trace, st);
      trace := trace + [st];
    }

    // The loop of create_thread: `while !stopped.load()`
    method LoopHead(w: nat)
      requires Recorded() && w < |workers| && workers[w].phase.CheckStop?
      modifies this`workers, this`trace
      ensures Recorded() && Model() == Turn(old(Model()), w)
    {
      ghost var s := Model();
      workers := workers[w := workers[w].(phase := if stopped then Exited else Dequeuing)];
      Record(s, Check(w));
    }

    // queue.dequeue(), when there is something to take
    method TakeCommand(w: nat)
      requires Recorded() && w < |workers| && workers[w].phase.Dequeuing?
      requires queue != [] && queue[0] < |accepted|
      modifies this`queue, this`workers, this`taker, this`trace
      ensures Recorded() && Model() == Turn(old(Model()), w)
    {
      ghost var s := Model();
      var i := queue[0];
      queue := queue[1..];
      workers := workers[w := workers[w].(phase := if accepted[i].InAll? then Entering(i) else Executing(i))];
      taker := taker + [w];
      Record(s, Take(w));
    }

    // c.execute() of a submitted command: r is overwritten by an error only
    method ExecuteCommand(w: nat)
      requires Recorded() && w < |workers| && workers[w].phase.Executing? && workers[w].phase.i < |accepted|
      modifies this`workers, this`trace
      ensures Recorded() && Model() == Turn(old(Model()), w)
    {
      ghost var s := Model();
      var i := workers[w].phase.i;
      var r := workers[w].r;
      match OutcomeOf(accepted[i]) {
        case Ok =>
        case Err(message) => r := Err(message);
      }
      workers := workers[w := Worker(CheckStop, workers[w].log + [i], r)];
      Record(s, Finish(w));
    }

    // execute() of a barrier command: lock f's mutex if there is one
    method EnterBody(w: nat)
      requires Recorded() && w < |workers| && workers[w].phase.Entering? && Barred(Model(), workers[w].phase.i)
      modifies this`workers, this`calls, this`trace
      ensures Recorded() && Model() == Turn(old(Model()), w)
    {
      ghost var s := Model();
      var i := workers[w].phase.i;
      var c := accepted[i].call;
      if calls[c].mutexed && calls[c].holder.Some? {
        return;
      }
      if calls[c].mutexed {
        calls := calls[c := calls[c].(holder := Some(w))];
      }
      workers := workers[w := workers[w].(phase := InBody(i))];
      Record(s, Enter(w));
    }

    // f() returns and the guard of its mutex goes out of scope
    method LeaveBody(w: nat)
      requires Recorded() && w < |workers| && workers[w].phase.InBody? && Barred(Model(), workers[w].phase.i)
      modifies this`workers, this`calls, this`trace
      ensures Recorded() && Model() == Turn(old(Model()), w)
    {
      ghost var s := Model();
      var i := workers[w].phase.i;
      var c := accepted[i].call;
      calls := calls[c := calls[c].(holder := None)];
      workers := workers[w := workers[w].(phase := Arriving(i), log := workers[w].log + [i])];
      Record(s, EndBody(w));
    }

    // b.wait()
    method ArriveAtBarrier(w: nat)
      requires Recorded() && w < |workers| && workers[w].phase.Arriving? && Barred(Model(), workers[w].phase.i)
      modifies this`workers, this`calls, this`trace
      ensures Recorded() && Model() == Turn(old(Model()), w)
    {
      ghost var s := Model();
      var i := workers[w].phase.i;
      var c := accepted[i].call;
      calls := calls[c := calls[c].(arrivals := calls[c].arrivals + 1)];
      workers := workers[w := workers[w].(phase := AtBarrier(i))];
      Record(s, Arrive(w));
    }

    // b.wait() returns, if everybody has arrived
    method LeaveBarrier(w: nat)
      requires Recorded() && w < |workers| && workers[w].phase.AtBarrier? && Barred(Model(), workers[w].phase.i)
      modifies this`workers, this`trace
      ensures Recorded() && Model() == Turn(old(Model()), w)
    {
      if calls[accepted[workers[w].phase.i].call].arrivals > tasks {
        ghost var s := Model();
        workers := workers[w := workers[w].(phase := CheckStop)];
        Record(s, Leave(w));
      }
    }

    // One atomic action of worker w in the loop of create_thread; nothing if it is blocked or gone.
    method WorkerTurn(w: nat)
      requires Recorded()
      modifies this`queue, this`workers, this`calls, this`taker, this`trace
      ensures Recorded() && Model() == Turn(old(Model()), w)
      ensures forall st: Step :: st.ByWorker() && st.w == w && Enabled(old(Model()), st) ==> Model() == Apply(old(Model()), st)
      ensures (forall st: Step :: st.ByWorker() && st.w == w ==> !Enabled(old(Model()), st)) ==> Model() == old(Model())
      ensures SameCalls(old(calls), calls) && |workers| == |old(workers)|
    {
      if w < |workers| {
        ModelReachable();
        ReachableInv(Model());
        assert WorkerOk(Model(), w);
        match workers[w].phase {
          case CheckStop => LoopHead(w);
          case Dequeuing =>
            if queue != [] {
              TakeCommand(w);
            }
          case Executing(_) => ExecuteCommand(w);
          case Entering(_) => EnterBody(w);
          case InBody(_) => LeaveBody(w);
          case Arriving(_) => ArriveAtBarrier(w);
          case AtBarrier(_) => LeaveBarrier(w);
          case Exited =>
        }
      }
      TurnKeepsCalls(old(Model()), w);
      TurnIsTheStep(old(Model()), w);
    }

    // queue.enqueue(), when there is room
    method Put(command: Command)
      requires |queue| < cap
      modifies this`queue, this`accepted
      ensures Model() == Enqueue(old(Model()), command)
    {
      queue := queue + [|accepted|];
      accepted := accepted + [command];
    }

    // The caller of an operation with this program waits for room in the queue while the workers go on.
    method MakeRoom(schedule: seq<nat>, ghost program: seq<Step>) returns (rest: seq<nat>, room: bool)
      requires Recorded() && program != [] && NeedsRoom(Model(), program[0])
      modifies this`queue, this`workers, this`calls, this`taker, this`trace
      ensures Recorded() && SameCalls(old(calls), calls)
      ensures NeedsRoom(Model(), program[0]) && (room <==> |queue| < cap)
      ensures Carried(Model(), program, rest) == Carried(old(Model()), program, schedule) && (!room ==> rest == [])
    {
      hide Enabled, Apply, Run, CanRun, Carried, Turn;
      rest := schedule;
      while |queue| >= cap && rest != []
        invariant Recorded() && SameCalls(old(calls), calls) && NeedsRoom(Model(), program[0])
        invariant Carried(Model(), program, rest) == Carried(old(Model()), program, schedule)
        decreases |rest|
      {
        RoomOrNot(Model(), program[0]);
        CarriedTurn(Model(), program, rest);
        TurnKeepsCalls(Model(), rest[0]);
        WorkerTurn(rest[0]);
        rest := rest[1..];
      }
      room := |queue| < cap;
    }

    lemma QueueBound()
      requires Recorded()
      ensures |queue| <= cap
    {
      ModelReachable();
      ReachableInv(Model());
    }

    method Accept(work: Command)
      requires Valid() && !expired && work.Work? && |queue| < cap
      modifies this`queue, this`trace, this`accepted
      ensures Valid() && Model() == Enqueue(old(Model()), work)
      ensures accepted == old(accepted) + [work] && queue == old(queue) + [|old(accepted)|]
    {
      ghost var s := Model();
      Put(work);
      Record(s, Pool.Submit(work));
    }

    // One action of another thread: a turn of a worker, or the submission of another client.
    method LetAct(act: Act)
      requires Valid() && !expired
      modifies this`queue, this`workers, this`calls, this`taker, this`trace, this`accepted
      ensures Valid() && Model() == Acted(old(Model()), act)
    {
      match act {
        case ByWorker(w) => WorkerTurn(w);
        case ByClient(work) =>
          if work.Work? && |queue| < cap {
            Accept(work);
          }
      }
    }

    method LetActAll(acts: seq<Act>)
      requires Valid() && !expired
      modifies this`queue, this`workers, this`calls, this`taker, this`trace, this`accepted
      ensures Valid() && Model() == ActedAll(old(Model()), acts)
    {
      var rest := acts;
      while rest != []
        invariant Valid() && ActedAll(Model(), rest) == ActedAll(old(Model()), acts)
        decreases |rest|
      {
        LetAct(rest[0]);
        rest := rest[1..];
      }
    }

    // try_submit: asserts !expired and waits while the queue is full. After each wait, in which the other
    // threads act, it looks at the clock, and gives the command back without looking at the queue again
    // if what is left of the timeout is used up; if not, it charges the wait, and goes on if there is
    // room. n is the number of waits.
    method TrySubmit(command: Command, timeout: Fifo.Timeout, waits: seq<Wait>) returns (r: Submission, ghost n: nat)
      requires Valid() && !expired && command.Work?
      modifies this`queue, this`workers, this`calls, this`taker, this`trace, this`accepted, this`clock
      ensures Valid() && n <= |waits|
      ensures !r.GivenBack? ==> clock == old(clock) + Passed(waits[..n]) + Restarts(waits[..n])
      ensures NoRoomUntil(old(Model()), waits, n)
      ensures r.Accepted? ==> InTimeUntil(timeout, waits, n + 1)
      ensures r.Accepted? ==> |Waited(old(Model()), waits[..n]).queue| < cap
      ensures r.Accepted? ==> Model() == Enqueue(Waited(old(Model()), waits[..n]), command)
      ensures r.Accepted? ==> var s := Waited(old(Model()), waits[..n]);
        accepted == s.accepted + [command] && queue == s.queue + [|s.accepted|]
      ensures !r.Accepted? ==> Model() == Waited(old(Model()), waits[..n])
      ensures r.GivenBack? ==> r.command == command && n > 0
      ensures r.GivenBack? ==> InTimeUntil(timeout, waits, n) && Fifo.TimeUp(timeout, Passed(waits[..n]))
      ensures r.GivenBack? ==> Fifo.TimeUp(timeout, clock - old(clock))
      ensures r.StillBlocked? ==> n == |waits| && |queue| == cap && InTimeUntil(timeout, waits, n + 1)
    {
      WaitBegins(Model(), timeout, waits);
      hide Enabled, Apply, Run, CanRun, Enqueue, ActedAll, Waited, Passed, Restarts, NoRoomUntil, InTimeUntil;
      n := 0;
      var k, t, start := 0, timeout, clock;
      while |queue| >= cap
        invariant 0 <= k <= |waits| && n == k && clock == start == old(clock) + Passed(waits[..k]) + Restarts(waits[..k])
        invariant if timeout.Forever? then t.Forever? else t.Finite? && Passed(waits[..k]) + t.d == timeout.d
        invariant Valid() && !expired && Model() == Waited(old(Model()), waits[..k])
        invariant NoRoomUntil(old(Model()), waits, k) && InTimeUntil(timeout, waits, k + 1)
        decreases |waits| - k
      {
        if k == |waits| {
          QueueBound();
          return StillBlocked, n;
        }
        OneMoreWait(old(Model()), waits, k);
        StillNoRoom(old(Model()), waits, k);
        LetActAll(waits[k].acts);
        clock := clock + waits[k].passed;
        n := k + 1;
        var elapsed := clock - start;
        if !Fifo.Below(elapsed, t) {
          return GivenBack(command), n;
        }
        StillInTime(timeout, waits, k);
        t := Fifo.Charge(t, elapsed);
        clock := clock + waits[k].restart;
        start := clock;
        k := k + 1;
      }
      Accept(command);
      r := Accepted;
    }

    method SubmitBarrierCommand(c: nat)
      requires Valid() && !expired && |queue| < cap
      requires c < |calls| && calls[c].caller.Submitting? && |calls[c].tickets| < tasks
      modifies this`queue, this`calls, this`trace, this`accepted
      ensures Valid() && accepted == old(accepted) + [InAll(c)]
      ensures calls == old(calls)[c := old(calls)[c].(tickets := old(calls)[c].tickets + [|old(accepted)|])]
      ensures Enabled(old(Model()), SendTicket(c)) && Model() == Apply(old(Model()), SendTicket(c))
    {
      ghost var s := Model();
      calls := calls[c := calls[c].(tickets := calls[c].tickets + [|accepted|])];
      Put(InAll(c));
      Record(s, SendTicket(c));
    }

    // The loop of in_all_threads that submits the barrier commands.
    method SubmitBarrierCommands(c: nat, schedule: seq<nat>) returns (rest: seq<nat>, sent: bool, ghost left: nat)
      requires Valid() && !expired && c == |calls| - 1
      requires calls[c].caller.Submitting? && calls[c].tickets == []
      modifies this`queue, this`workers, this`calls, this`taker, this`trace, this`accepted
      ensures Valid() && |calls| == |old(calls)| && SameCalls(old(calls)[..c], calls[..c])
      ensures calls[c].caller.Submitting? && calls[c].body == old(calls)[c].body && calls[c].mutexed == old(calls)[c].mutexed
      ensures forall t :: t in calls[c].tickets ==> |old(accepted)| <= t
      ensures |calls[c].tickets| + left == tasks && (sent <==> left == 0) && (!sent ==> rest == [] && |queue| == cap)
      ensures Carried(Model(), Repeat(SendTicket(c), left) + CallTail(c), rest) ==
        Carried(old(Model()), Repeat(SendTicket(c), tasks) + CallTail(c), schedule)
    {
      hide Enabled, Apply, Run, CanRun, Carried, Repeat;
      rest, sent, left := schedule, true, tasks;
      for i := 0 to tasks
        invariant Valid() && |calls| == |old(calls)| && SameCalls(old(calls)[..c], calls[..c]) && left == tasks - i
        invariant calls[c].caller.Submitting? && |calls[c].tickets| == i
        invariant calls[c].body == old(calls)[c].body && calls[c].mutexed == old(calls)[c].mutexed
        invariant |old(accepted)| <= |accepted| && forall t :: t in calls[c].tickets ==> |old(accepted)| <= t
        invariant Carried(Model(), Repeat(SendTicket(c), left) + CallTail(c), rest) ==
          Carried(old(Model()), Repeat(SendTicket(c), tasks) + CallTail(c), schedule)
      {
        ghost var program := Repeat(SendTicket(c), left) + CallTail(c);
        RepeatStep(SendTicket(c), left, CallTail(c));
        var room;
        rest, room := MakeRoom(rest, program);
        if !room {
          QueueBound();
          return rest, false, left;
        }
        RoomOrNot(Model(), program[0]);
        CarriedOwn(Model(), program, rest);
        SubmitBarrierCommand(c);
        left := left - 1;
      }
    }

    // The caller's b.wait().
    method AwaitBarrier(c: nat, schedule: seq<nat>) returns (rest: seq<nat>, returned: bool)
      requires Valid() && c == |calls| - 1 && calls[c].caller.Submitting? && |calls[c].tickets| == tasks
      modifies this`queue, this`workers, this`calls, this`taker, this`trace
      ensures Valid() && |calls| == |old(calls)| && SameCalls(old(calls)[..c], calls[..c])
      ensures calls[c].body == old(calls)[c].body && calls[c].mutexed == old(calls)[c].mutexed
      ensures calls[c].tickets == old(calls)[c].tickets
      ensures returned ==> CallIn(Model(), c, Returned)
      ensures !returned ==> CallIn(Model(), c, Waiting) && !Released(Model(), c)
      ensures Carried(old(Model()), CallTail(c), schedule) ==
        Carry(Model(), if returned then [] else [CallerReturn(c)], rest)
      ensures !returned ==> rest == []
    {
      hide Enabled, Apply, Run, CanRun, Carried, Turn;
      ArriveAsCaller(c, schedule);
      rest := schedule;
      while calls[c].arrivals <= tasks && rest != []
        invariant Valid() && |calls| == |old(calls)| && SameCalls(old(calls)[..c], calls[..c])
        invariant calls[c].caller.Waiting?
        invariant calls[c].body == old(calls)[c].body && calls[c].mutexed == old(calls)[c].mutexed
        invariant calls[c].tickets == old(calls)[c].tickets
        invariant Carried(Model(), [CallerReturn(c)], rest) == Carried(old(Model()), CallTail(c), schedule)
        decreases |rest|
      {
        ReturnOrNot(Model(), c);
        CarriedTurn(Model(), [CallerReturn(c)], rest);
        WorkerTurn(rest[0]);
        rest := rest[1..];
      }
      returned := calls[c].arrivals > tasks;
      if returned {
        ReturnToCaller(c, rest);
      } else {
        ReturnOrNot(Model(), c);
        StillCarried(Model(), [CallerReturn(c)]);
      }
    }

    method ArriveAsCaller(c: nat, ghost schedule: seq<nat>)
      requires Valid() && c < |calls| && calls[c].caller.Submitting? && |calls[c].tickets| == tasks
      modifies this`calls, this`trace
      ensures Valid() && calls == old(calls)[c := old(calls)[c].(caller := Waiting, arrivals := old(calls)[c].arrivals + 1)]
      ensures Carried(Model(), [CallerReturn(c)], schedule) == Carried(old(Model()), CallTail(c), schedule)
    {
      ghost var s := Model();
      assert CallTail(c)[1..] == [CallerReturn(c)];
      CarriedOwn(s, CallTail(c), schedule);
      calls := calls[c := calls[c].(caller := Waiting, arrivals := calls[c].arrivals + 1)];
      Record(s, CallerArrive(c));
    }

    method ReturnToCaller(c: nat, ghost schedule: seq<nat>)
      requires Valid() && c < |calls| && calls[c].caller.Waiting? && calls[c].arrivals > tasks
      modifies this`calls, this`trace
      ensures Valid() && calls == old(calls)[c := old(calls)[c].(caller := Returned)]
      ensures Carried(old(Model()), [CallerReturn(c)], schedule) == Carry(Model(), [], schedule)
    {
      ghost var s := Model();
      CarriedOwn(s, [CallerReturn(c)], schedule);
      calls := calls[c := calls[c].(caller := Returned)];
      Record(s, CallerReturn(c));
    }

    lemma StillCarried(s: State, program: seq<Step>)
      requires program != [] && !Enabled(s, program[0])
      ensures Carried(s, program, []) == Carry(s, program, [])
    {
    }

    // in_all_threads and in_all_threads_mut: a full flush, when it returns. It does not return only if
    // the schedule is used up with the queue full or the barrier closed.
    method InAllThreads(mutexed: bool, body: Body, schedule: seq<nat>) returns (c: nat, returned: bool)
      requires Valid() && !expired
      modifies this`queue, this`workers, this`calls, this`taker, this`trace, this`accepted
      ensures Valid() && c == |old(calls)|
      ensures |calls| == c + 1 && SameCalls(old(calls), calls[..c])
      ensures calls[c].mutexed == mutexed && calls[c].body == body
      ensures forall t :: t in calls[c].tickets ==> |old(accepted)| <= t
      ensures var end := Carried(old(Model()), CallProgram(mutexed, body, tasks, c), schedule);
        Model() == end.s && (returned <==> end.program == []) && (!returned ==> end.schedule == [])
      ensures returned ==> CallIn(Model(), c, Returned)
      ensures !returned ==>
        (|calls[c].tickets| < tasks && |queue| == cap) || (CallIn(Model(), c, Waiting) && !Released(Model(), c))
      ensures returned ==> forall w: nat :: w < |workers| ==> |BodiesRun(Model(), c, w)| == 1
      ensures returned && tasks > 0 ==> forall i: nat :: i < |old(accepted)| ==> |Executions(Model(), i)| == 1
    {
      c := |calls|;
      BeginCall(mutexed, body, schedule);
      var rest, sent;
      ghost var left;
      rest, sent, left := SubmitBarrierCommands(c, schedule);
      returned := false;
      if sent {
        assert Repeat(SendTicket(c), 0) + CallTail(c) == CallTail(c);
        rest, returned := AwaitBarrier(c, rest);
      } else {
        RepeatStep(SendTicket(c), left, CallTail(c));
      }
      if returned {
        FlushedNow(c, |old(accepted)|);
      }
    }

    method BeginCall(mutexed: bool, body: Body, ghost schedule: seq<nat>)
      requires Valid() && !expired
      modifies this`calls, this`trace
      ensures Valid() && calls == old(calls) + [Call(mutexed, body, [], 0, Submitting, None)]
      ensures Carried(Model(), Repeat(SendTicket(|old(calls)|), tasks) + CallTail(|old(calls)|), schedule) ==
        Carried(old(Model()), CallProgram(mutexed, body, tasks, |old(calls)|), schedule)
    {
      ghost var s := Model();
      ghost var program := CallProgram(mutexed, body, tasks, |calls|);
      assert program[1..] == Repeat(SendTicket(|calls|), tasks) + CallTail(|calls|);
      CarriedOwn(s, program, schedule);
      calls := calls + [Call(mutexed, body, [], 0, Submitting, None)];
      Record(s, StartCall(mutexed, body));
    }

    lemma FlushedNow(c: nat, n: nat)
      requires Recorded() && CallIn(Model(), c, Returned)
      requires forall t :: t in calls[c].tickets ==> n <= t
      ensures forall w: nat :: w < |workers| ==> |BodiesRun(Model(), c, w)| == 1
      ensures tasks > 0 ==> forall i: nat :: i < n ==> |Executions(Model(), i)| == 1
    {
      ModelReachable();
      FullFlush(Model(), c);
      forall i: nat | tasks > 0 && i < n ensures |Executions(Model(), i)| == 1 {
        assert calls[c].tickets[0] in calls[c].tickets;
      }
    }

    // set_thread_local: when it returns, every worker's slot holds the value.
    method SetThreadLocal(value: int, schedule: seq<nat>) returns (returned: bool)
      requires Valid() && !expired
      modifies this`queue, this`workers, this`calls, this`taker, this`trace, this`accepted
      ensures Valid()
      ensures var end := Carried(old(Model()), CallProgram(false, SetSlot(value), tasks, |old(calls)|), schedule);
        Model() == end.s && (returned <==> end.program == [])
      ensures returned ==> forall w :: 0 <= w < |workers| ==> Slot(Model(), workers[w].log) == Some(value)
    {
      ModelReachable();
      ReachableInv(Model());
      ghost var before := Model();
      var c;
      c, returned := InAllThreads(false, SetSlot(value), schedule);
      if returned {
        ModelReachable();
        ReachableInv(Model());
        forall d, u, t | 0 <= d < c && u in calls[d].tickets && t in calls[c].tickets ensures u < t {
          assert calls[..c][d].tickets == before.calls[d].tickets;
          assert ForCall(before, u, d);
        }
        forall w | 0 <= w < |workers| ensures Slot(Model(), workers[w].log) == Some(value) {
          assert forall u: nat :: SetsSlot(Model(), u) ==> u in calls[accepted[u].call].tickets;
          SetThreadLocalVisible(Model(), c, w);
        }
      }
    }

    // The caller waits until the queue is empty while the workers go on.
    method AwaitQueueEmpty(schedule: seq<nat>, ghost program: seq<Step>) returns (rest: seq<nat>, seen: bool)
      requires Recorded() && owner.AwaitEmpty? && program != [] && program[0] == SeeEmpty
      modifies this`queue, this`workers, this`calls, this`taker, this`trace
      ensures Recorded() && (seen <==> queue == []) && (!seen ==> rest == [])
      ensures Carried(Model(), program, rest) == Carried(old(Model()), program, schedule)
    {
      hide Enabled, Apply, Run, CanRun, Carried, Turn;
      rest := schedule;
      while queue != [] && rest != []
        invariant Recorded() && Carried(Model(), program, rest) == Carried(old(Model()), program, schedule)
        decreases |rest|
      {
        EmptyOrNot(Model());
        CarriedTurn(Model(), program, rest);
        WorkerTurn(rest[0]);
        rest := rest[1..];
      }
      seen := queue == [];
    }

    // The first part of shutdown: mark the pool expired and, in CompletePending mode, wait until
    // the queue is empty.
    method BeginShutdown(schedule: seq<nat>) returns (rest: seq<nat>, ready: bool)
      requires Valid() && !expired && forall c :: 0 <= c < |calls| ==> calls[c].caller.Returned?
      modifies this`queue, this`workers, this`calls, this`taker, this`trace, this`owner, this`closedAt, this`expired
      ensures Valid() && expired && closedAt == |accepted|
      ensures ready ==> owner.Storing?
      ensures !ready ==> owner.AwaitEmpty? && queue != [] && rest == []
      ensures Carried(old(Model()), ShutdownProgram(mode, tasks), schedule) ==
        Carried(Model(), (if ready then [] else [SeeEmpty]) + StopProgram(tasks), rest)
    {
      hide Enabled, Apply, Run, CanRun, Carried;
      rest, ready := schedule, true;
      MarkExpired(schedule);
      if mode.CompletePending? {
        ghost var program := [SeeEmpty] + StopProgram(tasks);
        rest, ready := AwaitQueueEmpty(rest, program);
        if ready {
          RecordEmpty(rest);
        }
      }
      assert [] + StopProgram(tasks) == StopProgram(tasks);
    }

    ghost method RecordEmpty(schedule: seq<nat>)
      requires Valid() && owner.AwaitEmpty? && queue == []
      modifies this`owner, this`trace
      ensures Valid() && owner.Storing?
      ensures Carried(old(Model()), [SeeEmpty] + StopProgram(tasks), schedule) == Carried(Model(), StopProgram(tasks), schedule)
    {
      var s := Model();
      var program := [SeeEmpty] + StopProgram(tasks);
      assert program[1..] == StopProgram(tasks);
      CarriedOwn(s, program, schedule);
      owner := Storing;
      Record(s, SeeEmpty);
    }

    method MarkExpired(ghost schedule: seq<nat>)
      requires Valid() && !expired && forall c :: 0 <= c < |calls| ==> calls[c].caller.Returned?
      modifies this`expired, this`owner, this`closedAt, this`trace
      ensures Valid() && expired && closedAt == |accepted|
      ensures owner == if mode.Immediate? then Storing else AwaitEmpty
      ensures Carried(old(Model()), ShutdownProgram(mode, tasks), schedule) ==
        Carried(Model(), (if mode.CompletePending? then [SeeEmpty] else []) + StopProgram(tasks), schedule)
    {
      ghost var s := Model();
      ghost var program := ShutdownProgram(mode, tasks);
      assert program[1..] == (if mode.CompletePending? then [SeeEmpty] else []) + StopProgram(tasks);
      CarriedOwn(s, program, schedule);
      expired := true;
      owner, closedAt := if mode.Immediate? then Storing else AwaitEmpty, |accepted|;
      Record(s, Close);
    }

    method SetStopped(ghost schedule: seq<nat>)
      requires Valid() && owner.Storing?
      modifies this`stopped, this`owner, this`trace
      ensures Valid() && stopped && owner == Sending(0)
      ensures Carried(old(Model()), StopProgram(tasks), schedule) == Carried(Model(), Repeat(SendToken, tasks), schedule)
    {
      ghost var s := Model();
      assert StopProgram(tasks)[1..] == Repeat(SendToken, tasks);
      CarriedOwn(s, StopProgram(tasks), schedule);
      stopped := true;
      owner := Sending(0);
      Record(s, StoreStop);
    }

    // shutdown. In CompletePending mode it waits for the queue to be empty before it sets `stopped`;
    // in both modes it ends by sending one EmptyCommand per thread.
    method Shutdown(schedule: seq<nat>) returns (done: bool)
      requires Valid() && !expired && forall c :: 0 <= c < |calls| ==> calls[c].caller.Returned?
      modifies this
      ensures Valid() && expired && closedAt == |old(accepted)|
      ensures done ==> stopped && owner == Sending(tasks) && accepted == old(accepted) + seq(tasks, _ => Empty)
      ensures !done ==> |queue| == cap || (owner.AwaitEmpty? && queue != [])
      ensures var end := Carried(old(Model()), ShutdownProgram(mode, tasks), schedule);
        Model() == end.s && (done <==> end.program == []) && (!done ==> end.schedule == [])
      ensures done && mode.CompletePending? ==> closedAt <= |taker|
    {
      hide Enabled, Apply, Run, CanRun, ShutdownProgram, Repeat;
      var rest, ready := BeginShutdown(schedule);
      done := false;
      if ready {
        assert [] + StopProgram(tasks) == StopProgram(tasks);
        SetStopped(rest);
        done := SendTokens(rest);
      } else {
        EmptyOrNot(Model());
        StillCarried(Model(), [SeeEmpty] + StopProgram(tasks));
      }
      TakenAtStop();
    }

    lemma TakenAtStop()
      requires Recorded()
      ensures owner.Sending? && mode.CompletePending? ==> closedAt <= |taker|
    {
      ModelReachable();
      ReachableInv(Model());
    }

    method SendOneToken()
      requires Valid() && owner.Sending? && owner.tokens < tasks && |queue| < cap
      modifies this`queue, this`trace, this`accepted, this`owner
      ensures Valid() && accepted == old(accepted) + [Empty] && owner == Sending(old(owner).tokens + 1)
      ensures Enabled(old(Model()), SendToken) && Model() == Apply(old(Model()), SendToken)
    {
      ghost var s := Model();
      Put(Empty);
      owner := Sending(owner.tokens + 1);
      Record(s, SendToken);
    }

    method SendTokens(schedule: seq<nat>) returns (done: bool)
      requires Valid() && owner == Sending(0)
      modifies this`queue, this`workers, this`calls, this`taker, this`trace, this`accepted, this`owner
      ensures Valid()
      ensures done ==> owner == Sending(tasks) && accepted == old(accepted) + seq(tasks, _ => Empty)
      ensures !done ==> |queue| == cap
      ensures var end := Carried(old(Model()), Repeat(SendToken, tasks), schedule);
        Model() == end.s && (done <==> end.program == []) && (!done ==> end.schedule == [])
    {
      hide Enabled, Apply, Run, CanRun;
      var rest := schedule;
      for i := 0 to tasks
        invariant Valid() && owner == Sending(i) && accepted == old(accepted) + seq(i, _ => Empty)
        invariant Carried(Model(), Repeat(SendToken, tasks - i), rest) == Carried(old(Model()), Repeat(SendToken, tasks), schedule)
      {
        ghost var program := Repeat(SendToken, tasks - i);
        var room;
        rest, room := MakeRoom(rest, program);
        RoomOrNot(Model(), program[0]);
        if !room {
          QueueBound();
          return false;
        }
        CarriedOwn(Model(), program, rest);
        SendOneToken();
      }
      done := true;
    }

    // JoinHandle::join: waits for the thread to leave its loop while the workers go on.
    method AwaitExit(w: nat, schedule: seq<nat>, ghost program: seq<Step>) returns (rest: seq<nat>, gone: bool)
      requires Recorded() && w < |workers|
      requires owner.Joining? ==> program != [] && program[0] == JoinOne && owner.left == w + 1
      modifies this`queue, this`workers, this`calls, this`taker, this`trace
      ensures Recorded() && |workers| == |old(workers)|
      ensures (gone <==> workers[w].phase.Exited?) && (!gone ==> rest == [])
      ensures Turns(Model(), rest) == Turns(old(Model()), schedule)
      ensures owner.Joining? ==> Carried(Model(), program, rest) == Carried(old(Model()), program, schedule)
    {
      hide Enabled, Apply, Run, CanRun, Carried, Turn;
      rest := schedule;
      while !workers[w].phase.Exited? && rest != []
        invariant Recorded() && |workers| == |old(workers)|
        invariant Turns(Model(), rest) == Turns(old(Model()), schedule)
        invariant owner.Joining? ==> Carried(Model(), program, rest) == Carried(old(Model()), program, schedule)
        decreases |rest|
      {
        if owner.Joining? {
          ExitOrNot(Model());
          CarriedTurn(Model(), program, rest);
        }
        WorkerTurn(rest[0]);
        rest := rest[1..];
      }
      gone := workers[w].phase.Exited?;
    }

    // One round of the loop of join: the last handle is taken and its thread waited for. Before
    // shutdown the thread does not leave its loop.
    method JoinLast(schedule: seq<nat>) returns (rest: seq<nat>, gone: bool, r: Outcome)
      requires Valid() && (owner.Joining? || owner.Open?) && threads != []
      modifies this`queue, this`workers, this`calls, this`taker, this`trace, this`threads, this`owner
      ensures threads == old(threads)[..|old(threads)| - 1]
      ensures gone ==> Valid() && owner.Joining? && old(owner).Joining?
      ensures !gone ==> |threads| < |workers| && !workers[|threads|].phase.Exited? && owner == old(owner)
      ensures !gone ==> rest == [] && Model() == Turns(old(Model()), schedule)
      ensures gone ==> owner.errors == old(owner).errors + if r.Err? then [r.message] else []
      ensures old(owner).Joining? ==>
        Carried(old(Model()), Repeat(JoinOne, old(owner).left), schedule) ==
          Carried(Model(), Repeat(JoinOne, owner.left), rest)
      ensures old(owner).Joining? && !gone ==> !Enabled(Model(), JoinOne)
    {
      hide Apply, Run, CanRun, Carried, Turn;
      WorkerCount();
      var t := threads[|threads| - 1];
      threads := threads[..|threads| - 1];
      r := Ok;
      ghost var program := if owner.Joining? then Repeat(JoinOne, owner.left) else [];
      rest, gone := AwaitExit(t, schedule, program);
      GoneOnlyStopped(t);
      if gone {
        r := workers[t].r;
        CarriedOwn(Model(), program, rest);
        RecordJoined(t);
      }
    }

    lemma WorkerCount()
      requires Recorded()
      ensures |workers| == tasks && (owner.Joining? ==> owner.left <= tasks)
    {
      ModelReachable();
      ReachableInv(Model());
    }

    lemma GoneOnlyStopped(t: nat)
      requires Recorded() && t < |workers|
      ensures workers[t].phase.Exited? ==> !owner.Open?
    {
      ModelReachable();
      ReachableInv(Model());
      assert WorkerOk(Model(), t);
    }

    ghost method RecordJoined(t: nat)
      requires Recorded() && owner.Joining? && owner.left == t + 1 <= |workers| && workers[t].phase.Exited?
      modifies this`trace, this`owner
      ensures Recorded()
      ensures owner == Joining(t, old(owner).errors + if workers[t].r.Err? then [workers[t].r.message] else [])
      ensures Enabled(old(Model()), JoinOne) && Model() == Apply(old(Model()), JoinOne)
    {
      var s := Model();
      var r := workers[t].r;
      owner := Joining(t, if r.Err? then owner.errors + [r.message] else owner.errors);
      Record(s, JoinOne);
    }

    // join: the errors of the threads, the one created last first; Some([]) is Ok(()). Called again,
    // it has no handle left and reports nothing. Before shutdown it waits for a thread that never leaves.
    method Join(schedule: seq<nat>) returns (r: Option<seq<int>>)
      requires Valid() && (owner.Open? || owner == Sending(tasks) || Joined(Model()))
      modifies this
      ensures r.Some? ==> Valid() && threads == [] && (Joined(Model()) || tasks == 0)
      ensures r.Some? && old(owner).Sending? ==> Joined(Model()) && Reported(Model(), r.value)
      ensures r.Some? && mode.CompletePending? && !owner.Open? ==>
        forall i :: 0 <= i < closedAt ==> |Executions(Model(), i)| == 1
      ensures old(owner).Joining? || (old(owner).Open? && tasks == 0) ==> r == Some([]) && Model() == old(Model())
      ensures old(owner).Open? && tasks > 0 ==> r.None? && Model() == Turns(old(Model()), schedule)
      ensures old(owner).Sending? ==>
        var end := Carried(old(Model()), JoinProgram(tasks), schedule);
        Model() == end.s && (r.Some? <==> end.program == []) && (r.None? ==> end.schedule == [])
      ensures r.None? ==> |threads| < |workers| && !workers[|threads|].phase.Exited?
    {
      ghost var first := owner.Sending?;
      BeginToJoin(schedule);
      var joinErrors := [];
      var rest := schedule;
      while threads != []
        invariant Valid() && (owner.Joining? || owner.Open?)
        invariant first ==> owner.Joining? && owner.errors == joinErrors
        invariant first ==>
          Carried(Model(), Repeat(JoinOne, owner.left), rest) == Carried(old(Model()), JoinProgram(tasks), schedule)
        invariant !first ==> joinErrors == [] && Model() == old(Model()) && rest == schedule
        decreases |threads|
      {
        var gone, result;
        rest, gone, result := JoinLast(rest);
        if !gone {
          return None;
        }
        if result.Err? {
          joinErrors := joinErrors + [result.message];
        }
      }
      r := Some(joinErrors);
      if owner.Joining? {
        AfterJoin();
      }
    }

    ghost method BeginToJoin(schedule: seq<nat>)
      requires Valid() && (owner.Open? || owner == Sending(tasks) || Joined(Model()))
      modifies this`owner, this`trace
      ensures Valid() && (owner.Joining? || owner.Open?)
      ensures if old(owner).Sending? then owner == Joining(tasks, []) else Model() == old(Model())
      ensures old(owner).Sending? ==>
        Carried(Model(), Repeat(JoinOne, tasks), schedule) == Carried(old(Model()), JoinProgram(tasks), schedule)
    {
      if owner.Sending? {
        var s := Model();
        assert JoinProgram(tasks)[1..] == Repeat(JoinOne, tasks);
        CarriedOwn(s, JoinProgram(tasks), schedule);
        owner := Joining(tasks, []);
        Record(s, BeginJoin);
      }
    }

    lemma AfterJoin()
      requires Recorded() && Joined(Model())
      ensures Reported(Model(), owner.errors)
      ensures mode.CompletePending? ==> forall i :: 0 <= i < closedAt ==> |Executions(Model(), i)| == 1
    {
      ModelReachable();
      JoinReport(Model());
      if mode.CompletePending? {
        CompletePendingExactlyOnce(Model());
      }
    }
  }

  function Acted(s: State, act: Act): State {
    match act
    case ByWorker(w) => Turn(s, w)
    case ByClient(work) => if Enabled(s, Submit(work)) then Apply(s, Submit(work)) else s
  }

  function ActedAll(s: State, acts: seq<Act>): State
    decreases |acts|
  {
    if acts == [] then s else ActedAll(Acted(s, acts[0]), acts[1..])
  }

  // The act of a client is the submission, if it is possible, and nothing otherwise.
  lemma ActedIsTheStep(s: State, work: Command)
    ensures Enabled(s, Submit(work)) ==>
      Acted(s, ByClient(work)) == s.(queue := s.queue + [|s.accepted|], accepted := s.accepted + [work])
    ensures !Enabled(s, Submit(work)) ==> Acted(s, ByClient(work)) == s
  {
  }

  lemma {:induction false} ActedMore(s: State, acts: seq<Act>, act: Act)
    ensures ActedAll(s, acts + [act]) == Acted(ActedAll(s, acts), act)
    decreases |acts|
  {
    hide Acted;
    if acts == [] {
      assert [act][1..] == [];
      assert ActedAll(s, [act]) == ActedAll(Acted(s, act), []);
    } else {
      ActedMore(Acted(s, acts[0]), acts[1..], act);
      assert (acts + [act])[1..] == acts[1..] + [act];
    }
  }

  // What the others have made of the pool after these waits.
  function Waited(s: State, waits: seq<Wait>): State {
    if waits == [] then s else ActedAll(Waited(s, waits[..|waits| - 1]), waits[|waits| - 1].acts)
  }

  function Passed(waits: seq<Wait>): nat {
    if waits == [] then 0 else Passed(waits[..|waits| - 1]) + waits[|waits| - 1].passed
  }

  // Before each of the first n waits there was no room.
  ghost predicate NoRoomUntil(s: State, waits: seq<Wait>, n: nat) {
    forall m :: 0 <= m < n && m <= |waits| ==> |Waited(s, waits[..m]).queue| >= s.cap
  }

  // After each wait before the n-th the time was not up.
  ghost predicate InTimeUntil(timeout: Fifo.Timeout, waits: seq<Wait>, n: nat) {
    forall m :: 0 < m < n && m <= |waits| ==> !Fifo.TimeUp(timeout, Passed(waits[..m]))
  }

  lemma WaitBegins(s: State, timeout: Fifo.Timeout, waits: seq<Wait>)
    ensures Waited(s, waits[..0]) == s && Passed(waits[..0]) == 0 && Restarts(waits[..0]) == 0
    ensures NoRoomUntil(s, waits, 0) && InTimeUntil(timeout, waits, 1)
  {
  }

  lemma StillNoRoom(s: State, waits: seq<Wait>, k: nat)
    requires k < |waits| && NoRoomUntil(s, waits, k) && |Waited(s, waits[..k]).queue| >= s.cap
    ensures NoRoomUntil(s, waits, k + 1)
  {
    hide Waited;
  }

  lemma StillInTime(timeout: Fifo.Timeout, waits: seq<Wait>, k: nat)
    requires k < |waits| && InTimeUntil(timeout, waits, k + 1) && !Fifo.TimeUp(timeout, Passed(waits[..k + 1]))
    ensures InTimeUntil(timeout, waits, k + 2)
  {
    hide Passed;
  }

  function Restarts(waits: seq<Wait>): nat {
    if waits == [] then 0 else Restarts(waits[..|waits| - 1]) + waits[|waits| - 1].restart
  }

  lemma OneMoreWait(s: State, waits: seq<Wait>, k: nat)
    requires k < |waits|
    ensures Waited(s, waits[..k + 1]) == ActedAll(Waited(s, waits[..k]), waits[k].acts)
    ensures Passed(waits[..k + 1]) == Passed(waits[..k]) + waits[k].passed
    ensures Restarts(waits[..k + 1]) == Restarts(waits[..k]) + waits[k].restart
  {
    assert waits[..k + 1][..k] == waits[..k];
  }
}
