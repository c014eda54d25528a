// What every step of the pool keeps.
module PoolInvariant {

  import opened Counting
  import opened Wrappers
  import opened Pool

  // The queue is a bounded FIFO: commands leave it in the order of their submission numbers.
  ghost predicate Fifo(s: State) {
    && |s.workers| == s.tasks
    && |s.queue| <= s.cap
    && |s.accepted| == |s.taker| + |s.queue|
    && (forall j :: 0 <= j < |s.queue| ==> s.queue[j] == |s.taker| + j)
    && (forall i :: 0 <= i < |s.taker| ==> s.taker[i] < s.tasks)
  }

  // Command i has been dequeued and is not in the worker's log yet.
  predicate Holds(p: Phase, i: nat) {
    (p.Executing? || p.Entering? || p.InBody?) && p.i == i
  }

  // The worker is past f of barrier command i and not past the barrier.
  predicate Parked(p: Phase, i: nat) {
    (p.Arriving? || p.AtBarrier?) && p.i == i
  }

  predicate Increasing(log: seq<nat>) {
    forall j, k :: 0 <= j < k < |log| ==> log[j] < log[k]
  }

  ghost predicate WorkerOk(s: State, w: nat)
    requires w < |s.workers|
  {
    var worker := s.workers[w];
    var p := worker.phase;
    && Increasing(worker.log)
    && (forall i :: i in worker.log ==> i < |s.taker| && s.taker[i] == w)
    && (p.Executing? || p.Entering? || p.InBody? ==>
          p.i < |s.taker| && s.taker[p.i] == w && (forall k :: k in worker.log ==> k < p.i))
    && (p.Arriving? || p.AtBarrier? ==> worker.log != [] && worker.log[|worker.log| - 1] == p.i)
    && (p.Executing? ==> p.i < |s.accepted| && !s.accepted[p.i].InAll?)
    && (p.Entering? || p.InBody? || p.Arriving? || p.AtBarrier? ==> Barred(s, p.i))
    && (p.Exited? ==> s.stopped)
  }

  // A dequeued command is finished or in the hands of the worker that took it.
  ghost predicate Accounted(s: State) {
    forall i {:trigger s.taker[i]} :: 0 <= i < |s.taker| && s.taker[i] < |s.workers| ==>
      i in s.workers[s.taker[i]].log || Holds(s.workers[s.taker[i]].phase, i)
  }

  // The tickets of a call are exactly the submission numbers of its barrier commands.
  ghost predicate TicketsOk(s: State) {
    && (forall c :: 0 <= c < |s.calls| ==>
          && |s.calls[c].tickets| <= s.tasks
          && Increasing(s.calls[c].tickets)
          && (forall t :: t in s.calls[c].tickets ==> ForCall(s, t, c))
          && (!s.calls[c].caller.Submitting? ==> |s.calls[c].tickets| == s.tasks))
    && (forall i :: 0 <= i < |s.accepted| && s.accepted[i].InAll? ==>
          s.accepted[i].call < |s.calls| && i in s.calls[s.accepted[i].call].tickets)
  }

  ghost predicate InBodyOf(s: State, w: nat, c: nat) {
    w < |s.workers| && s.workers[w].phase.InBody? && ForCall(s, s.workers[w].phase.i, c)
  }

  // f's mutex is held by a worker inside f and by nobody else.
  ghost predicate MutexFor(s: State, c: nat)
    requires c < |s.calls|
  {
    && (s.calls[c].holder.Some? ==> s.calls[c].mutexed && InBodyOf(s, s.calls[c].holder.value, c))
    && (s.calls[c].mutexed ==> forall w: nat :: InBodyOf(s, w, c) ==> s.calls[c].holder == Some(w))
  }

  ghost predicate MutexOk(s: State) {
    forall c :: 0 <= c < |s.calls| ==> MutexFor(s, c)
  }

  ghost function AtBarrierOf(s: State, c: nat): set<nat> {
    set w: nat | 0 <= w < |s.workers| && s.workers[w].phase.AtBarrier? && ForCall(s, s.workers[w].phase.i, c)
  }

  function CallerArrivals(call: Call): nat {
    if call.caller.Submitting? then 0 else 1
  }

  // Until the barrier opens, everyone who arrived is still there.
  ghost predicate BarrierClosed(s: State, c: nat)
    requires c < |s.calls|
  {
    && s.calls[c].arrivals == |AtBarrierOf(s, c)| + CallerArrivals(s.calls[c])
    && !s.calls[c].caller.Returned?
    && (forall t :: t in s.calls[c].tickets && t < |s.taker| && s.taker[t] < |s.workers| ==>
          Holds(s.workers[s.taker[t]].phase, t) || Parked(s.workers[s.taker[t]].phase, t))
  }

  // Command i is in the log of the worker that took it.
  ghost predicate Finished(s: State, i: nat) {
    i < |s.taker| && s.taker[i] < |s.workers| && i in s.workers[s.taker[i]].log
  }

  // Once it is open, f is done in every worker and everything ahead of the last ticket is done.
  ghost predicate BarrierOpen(s: State, c: nat)
    requires c < |s.calls|
  {
    && !s.calls[c].caller.Submitting?
    && (forall t, i :: t in s.calls[c].tickets && 0 <= i <= t ==> Finished(s, i))
    && (forall w: nat :: w < s.tasks ==> Served(s, c, w))
    && (forall w :: 0 <= w < |s.workers| && s.workers[w].phase.Arriving? ==>
          !ForCall(s, s.workers[w].phase.i, c))
  }

  // Worker w took one of the call's barrier commands.
  ghost predicate Served(s: State, c: nat, w: nat)
    requires c < |s.calls|
  {
    exists t :: t in s.calls[c].tickets && TakenBy(s, t, w)
  }

  ghost predicate TakenBy(s: State, i: nat, w: nat) {
    i < |s.taker| && s.taker[i] == w
  }

  ghost predicate BarriersOk(s: State) {
    forall c :: 0 <= c < |s.calls| ==>
      && (Released(s, c) ==> BarrierOpen(s, c))
      && (!Released(s, c) ==> BarrierClosed(s, c))
  }

  // Where shutdown and join are.
  ghost predicate OwnerPlace(s: State) {
    && (s.stopped <==> s.owner.Sending? || s.owner.Joining?)
    && (!s.owner.Open? ==> forall c :: 0 <= c < |s.calls| ==> s.calls[c].caller.Returned?)
    && (s.owner.Sending? ==> s.owner.tokens <= s.tasks)
    && (s.owner.Joining? ==> s.owner.left <= s.tasks)
    && (s.owner.AwaitEmpty? ==> s.mode.CompletePending?)
  }

  // Which of the accepted commands are EmptyCommands, and what had been taken at the stop.
  ghost predicate OwnerCommands(s: State) {
    && (s.owner.Open? ==> forall i :: 0 <= i < |s.accepted| ==> !s.accepted[i].Empty?)
    && (!s.owner.Open? ==>
          && |s.accepted| == s.closedAt + Tokens(s)
          && (forall i :: 0 <= i < |s.accepted| ==> (s.accepted[i].Empty? <==> s.closedAt <= i)))
    && (s.mode.CompletePending? && !s.owner.Open? && !s.owner.AwaitEmpty? ==> s.closedAt <= |s.taker|)
  }

  ghost predicate OwnerOk(s: State) {
    OwnerPlace(s) && OwnerCommands(s)
  }

  // EmptyCommands put into the queue so far.
  function Tokens(s: State): nat {
    if s.owner.Sending? then s.owner.tokens else if s.owner.Joining? then s.tasks else 0
  }

  ghost predicate Basics(s: State) {
    && Fifo(s)
    && (forall w :: 0 <= w < |s.workers| ==> WorkerOk(s, w))
    && TicketsOk(s)
    && OwnerOk(s)
  }

  // What a step does to the queue and to the history of submissions and takes.
  lemma QueueStep(s: State, st: Step)
    requires Enabled(s, st)
    ensures var t := Apply(s, st);
      && t.cap == s.cap && t.tasks == s.tasks && |t.workers| == |s.workers|
      && (if st.Take? then
            st.w < |s.workers| && s.queue != [] && t.queue == s.queue[1..] && t.accepted == s.accepted && t.taker == s.taker + [st.w]
          else if st.Submit? || st.SendTicket? || st.SendToken? then
            && |s.queue| < s.cap && t.queue == s.queue + [|s.accepted|]
            && |t.accepted| == |s.accepted| + 1 && t.taker == s.taker
          else t.queue == s.queue && t.accepted == s.accepted && t.taker == s.taker)
  {
  }

  lemma FifoKept(s: State, st: Step)
    requires Fifo(s) && Enabled(s, st)
    ensures Fifo(Apply(s, st))
  {
    hide Apply, Enabled;
    QueueStep(s, st);
  }

  lemma IncreasingAppend(log: seq<nat>, i: nat)
    requires Increasing(log) && forall k :: k in log ==> k < i
    ensures Increasing(log + [i])
  {
    forall j, k | 0 <= j < k < |log + [i]| ensures (log + [i])[j] < (log + [i])[k] {
      assert log[j] in log;
    }
  }

  // What has been accepted, taken, called and stopped stays so.
  ghost predicate Grows(s: State, t: State) {
    && |s.taker| <= |t.taker| && t.taker[..|s.taker|] == s.taker
    && |s.accepted| <= |t.accepted| && t.accepted[..|s.accepted|] == s.accepted
    && |s.calls| <= |t.calls|
    && (s.stopped ==> t.stopped)
  }

  lemma StepGrows(s: State, st: Step)
    requires Enabled(s, st)
    ensures Grows(s, Apply(s, st)) && |Apply(s, st).workers| == |s.workers|
  {
  }

  // A step of one thread leaves the other workers as they are.
  lemma OtherWorkerKept(s: State, st: Step, w: nat)
    requires Basics(s) && Enabled(s, st) && w < |s.workers| == |Apply(s, st).workers|
    requires Apply(s, st).workers[w] == s.workers[w]
    ensures WorkerOk(Apply(s, st), w)
  {
    hide Apply, Enabled;
    StepGrows(s, st);
    var t := Apply(s, st);
    assert WorkerOk(s, w);
    assert forall i :: 0 <= i < |s.taker| ==> t.taker[i] == s.taker[i];
    assert forall i :: 0 <= i < |s.accepted| ==> t.accepted[i] == s.accepted[i];
  }

  lemma OwnWorkerKept(s: State, st: Step)
    requires Basics(s) && Enabled(s, st) && st.ByWorker()
    ensures WorkerOk(Apply(s, st), st.w)
  {
    assert WorkerOk(s, st.w);
    var worker := s.workers[st.w];
    if st.Finish? || st.EndBody? {
      IncreasingAppend(worker.log, worker.phase.i);
    }
  }

  lemma WorkerKept(s: State, st: Step, w: nat)
    requires Basics(s) && Enabled(s, st) && w < |s.workers|
    ensures WorkerOk(Apply(s, st), w)
  {
    if st.ByWorker() && st.w == w {
      OwnWorkerKept(s, st);
    } else {
      StepGrows(s, st);
      OtherWorkerKept(s, st, w);
    }
  }

  // Apart from sending a ticket, a step keeps the tickets and accepts no barrier command.
  lemma TicketsUntouched(s: State, st: Step)
    requires Enabled(s, st) && !st.SendTicket?
    ensures var t := Apply(s, st);
      && |s.calls| <= |t.calls| && |s.accepted| <= |t.accepted| && t.accepted[..|s.accepted|] == s.accepted
      && (forall i :: |s.accepted| <= i < |t.accepted| ==> !t.accepted[i].InAll?)
      && (forall c :: 0 <= c < |s.calls| ==> t.calls[c].tickets == s.calls[c].tickets)
      && (forall c :: |s.calls| <= c < |t.calls| ==> t.calls[c].tickets == [] && t.calls[c].caller.Submitting?)
      && t.tasks == s.tasks
  {
  }

  lemma CallersAdvance(s: State, st: Step, c: nat)
    requires Enabled(s, st) && !st.SendTicket? && c < |s.calls| && c < |Apply(s, st).calls|
    requires !Apply(s, st).calls[c].caller.Submitting?
    ensures !s.calls[c].caller.Submitting? || |s.calls[c].tickets| == s.tasks
  {
  }

  lemma TicketSent(s: State, st: Step)
    requires Basics(s) && Enabled(s, st) && st.SendTicket?
    ensures TicketsOk(Apply(s, st))
  {
    var tickets := s.calls[st.c].tickets;
    assert forall i :: i in tickets ==> ForCall(s, i, st.c);
    IncreasingAppend(tickets, |s.accepted|);
  }

  lemma TicketsKept(s: State, st: Step)
    requires Basics(s) && Enabled(s, st)
    ensures TicketsOk(Apply(s, st))
  {
    hide Apply, Enabled, WorkerOk, OwnerOk, Fifo;
    if st.SendTicket? {
      TicketSent(s, st);
    } else {
      TicketsUntouched(s, st);
      var t := Apply(s, st);
      forall c | 0 <= c < |t.calls| && !t.calls[c].caller.Submitting? ensures |t.calls[c].tickets| == t.tasks {
        if c < |s.calls| {
          CallersAdvance(s, st, c);
        }
      }
      forall c, i | 0 <= c < |t.calls| && i in t.calls[c].tickets ensures ForCall(t, i, c) {
        assert ForCall(s, i, c);
      }
    }
  }

  lemma OwnerPlaceKept(s: State, st: Step)
    requires OwnerPlace(s) && Enabled(s, st)
    ensures OwnerPlace(Apply(s, st))
  {
  }

  lemma OwnerCommandsKept(s: State, st: Step)
    requires Basics(s) && Enabled(s, st)
    ensures OwnerCommands(Apply(s, st))
  {
  }

  lemma OwnerKept(s: State, st: Step)
    requires Basics(s) && Enabled(s, st)
    ensures OwnerOk(Apply(s, st))
  {
    hide Apply, Enabled, OwnerPlace, OwnerCommands;
    OwnerPlaceKept(s, st);
    OwnerCommandsKept(s, st);
  }

  lemma AccountedKept(s: State, st: Step)
    requires Basics(s) && Accounted(s) && Enabled(s, st)
    ensures Accounted(Apply(s, st))
  {
  }

  lemma InBodyBefore(s: State, st: Step, w: nat, c: nat)
    requires Basics(s) && Enabled(s, st) && InBodyOf(Apply(s, st), w, c)
    ensures st != Enter(w) ==> InBodyOf(s, w, c) && st != EndBody(w)
  {
    assert w < |s.workers| by {
      StepGrows(s, st);
    }
    PhaseSteps(s, st, w);
    StepGrows(s, st);
    hide Apply, Enabled;
    assert WorkerOk(s, w);
  }

  // A worker is inside f after a step if it was before and has not ended it, or has just entered.
  lemma PhaseSteps(s: State, st: Step, w: nat)
    requires Enabled(s, st) && w < |s.workers| == |Apply(s, st).workers|
    ensures Apply(s, st).workers[w].phase.InBody? && st != Enter(w) ==>
      st != EndBody(w) && Apply(s, st).workers[w].phase == s.workers[w].phase
  {
  }

  lemma InBodyAfter(s: State, st: Step, w: nat, c: nat)
    requires Basics(s) && Enabled(s, st) && InBodyOf(s, w, c) && st != EndBody(w)
    ensures InBodyOf(Apply(s, st), w, c)
  {
  }

  // What a step does to the holder of one call's mutex.
  lemma HolderSteps(s: State, st: Step, c: nat)
    requires Enabled(s, st) && c < |s.calls| && c < |Apply(s, st).calls|
    ensures var t := Apply(s, st);
      && t.calls[c].mutexed == s.calls[c].mutexed
      && (if st.Enter? && ForCall(s, s.workers[st.w].phase.i, c) && s.calls[c].mutexed then
            s.calls[c].holder.None? && t.calls[c].holder == Some(st.w) && InBodyOf(t, st.w, c)
          else if st.EndBody? && ForCall(s, s.workers[st.w].phase.i, c) then t.calls[c].holder.None? && InBodyOf(s, st.w, c)
          else t.calls[c].holder == s.calls[c].holder && (st.Enter? ==> !InBodyOf(t, st.w, c) || !s.calls[c].mutexed)
                 && (st.EndBody? ==> !InBodyOf(s, st.w, c)))
  {
  }

  lemma MutexKept(s: State, st: Step, c: nat)
    requires Basics(s) && MutexOk(s) && Enabled(s, st) && c < |Apply(s, st).calls|
    ensures MutexFor(Apply(s, st), c)
  {
    var t := Apply(s, st);
    forall w: nat | InBodyOf(t, w, c) ensures st != Enter(w) ==> InBodyOf(s, w, c) && st != EndBody(w) {
      InBodyBefore(s, st, w, c);
    }
    if c < |s.calls| {
      assert MutexFor(s, c);
      HolderSteps(s, st, c);
      if s.calls[c].holder.Some? && st != EndBody(s.calls[c].holder.value) {
        InBodyAfter(s, st, s.calls[c].holder.value, c);
      }
      hide Apply, Enabled, InBodyOf, Basics, MutexOk;
    } else {
      assert forall w: nat :: !InBodyOf(s, w, c) by {
        forall w: nat ensures !InBodyOf(s, w, c) {
          if w < |s.workers| {
            assert WorkerOk(s, w);
          }
        }
      }
    }
  }

  lemma WorkerCount(s: State, st: Step)
    requires Enabled(s, st)
    ensures |Apply(s, st).workers| == |s.workers|
  {
  }

  lemma BasicsKept(s: State, st: Step)
    requires Basics(s) && Enabled(s, st)
    ensures Basics(Apply(s, st))
  {
    hide Apply, Enabled, WorkerOk, TicketsOk, OwnerOk;
    FifoKept(s, st);
    TicketsKept(s, st);
    OwnerKept(s, st);
    assert |Apply(s, st).workers| == |s.workers| by {
      WorkerCount(s, st);
    }
    forall w | 0 <= w < |s.workers| ensures WorkerOk(Apply(s, st), w) {
      WorkerKept(s, st, w);
    }
  }

  // Barriers

  ghost function IndexIn(xs: seq<nat>, x: nat): (j: nat)
    requires x in xs
    ensures j < |xs| && xs[j] == x
  {
    var j :| 0 <= j < |xs| && xs[j] == x;
    j
  }

  function TicketAt(s: State, w: nat): nat
    requires w < |s.workers|
  {
    if s.workers[w].phase.AtBarrier? then s.workers[w].phase.i else 0
  }

  // With every worker inside b.wait() of one call, all its tickets have been taken, one by each.
  lemma EveryTicketTaken(s: State, c: nat)
    requires Basics(s) && c < |s.calls| && |s.calls[c].tickets| == s.tasks
    requires forall w: nat :: w < s.tasks ==> w in AtBarrierOf(s, c)
    ensures forall t :: t in s.calls[c].tickets ==> t < |s.taker|
    ensures forall w: nat :: w < s.tasks ==> Served(s, c, w)
  {
    var tickets := s.calls[c].tickets;
    forall w: nat | w < s.tasks
      ensures TakenBy(s, TicketAt(s, w), w) && TicketAt(s, w) in tickets && Served(s, c, w)
    {
      assert w in AtBarrierOf(s, c) && WorkerOk(s, w);
      assert TicketAt(s, w) in s.workers[w].log;
    }
    var js := seq(s.tasks, w requires 0 <= w < s.tasks => IndexIn(tickets, TicketAt(s, w)));
    assert Distinct(js) by {
      forall w, v | 0 <= w < v < |js| ensures js[w] != js[v] {
        assert TakenBy(s, TicketAt(s, w), w) && TakenBy(s, TicketAt(s, v), v);
      }
    }
    Pigeonhole(js, s.tasks);
    forall t | t in tickets ensures t < |s.taker| {
      assert IndexIn(tickets, t) in js;
      var w :| 0 <= w < |js| && js[w] == IndexIn(tickets, t);
      assert TakenBy(s, TicketAt(s, w), w);
    }
  }

  lemma FullBarrierOpens(s: State, c: nat)
    requires Basics(s) && Accounted(s) && c < |s.calls| && !s.calls[c].caller.Submitting?
    requires |AtBarrierOf(s, c)| == s.tasks
    ensures BarrierOpen(s, c)
  {
    SubsetSize(AtBarrierOf(s, c), Below(s.tasks));
    forall w: nat | w < s.tasks ensures w in AtBarrierOf(s, c) {
      assert w in Below(s.tasks);
    }
    EveryTicketTaken(s, c);
    forall i | 0 <= i < |s.taker| ensures Finished(s, i) {
      assert s.taker[i] in AtBarrierOf(s, c);
    }
    forall w | 0 <= w < |s.workers| ensures s.workers[w].phase.AtBarrier? {
      assert w in AtBarrierOf(s, c);
    }
  }

  lemma NobodyArrives(s: State, st: Step, c: nat)
    requires Basics(s) && Enabled(s, st) && c < |s.calls| && !Released(s, c) && BarrierClosed(s, c)
    requires !(st.Arrive? && ForCall(s, s.workers[st.w].phase.i, c))
    ensures AtBarrierOf(Apply(s, st), c) == AtBarrierOf(s, c)
    ensures Apply(s, st).calls[c].arrivals == |AtBarrierOf(s, c)| + CallerArrivals(Apply(s, st).calls[c])
  {
    forall w: nat ensures w in AtBarrierOf(Apply(s, st), c) <==> w in AtBarrierOf(s, c) {
      if w < |s.workers| {
        StaysAtBarrier(s, st, c, w);
      }
    }
    hide AtBarrierOf, Basics;
  }

  lemma StaysAtBarrier(s: State, st: Step, c: nat, w: nat)
    requires Basics(s) && Enabled(s, st) && c < |s.calls| && !Released(s, c) && w < |s.workers|
    requires !(st.Arrive? && ForCall(s, s.workers[st.w].phase.i, c))
    ensures w in AtBarrierOf(Apply(s, st), c) <==> w in AtBarrierOf(s, c)
  {
    assert WorkerOk(s, w);
  }

  lemma ArrivalsCounted(s: State, st: Step, c: nat)
    requires Basics(s) && Enabled(s, st) && c < |s.calls|
    requires !Released(s, c) && BarrierClosed(s, c)
    ensures var t := Apply(s, st);
      t.calls[c].arrivals == |AtBarrierOf(t, c)| + CallerArrivals(t.calls[c])
  {
    var t := Apply(s, st);
    if st.Arrive? && ForCall(s, s.workers[st.w].phase.i, c) {
      assert AtBarrierOf(t, c) == AtBarrierOf(s, c) + {st.w};
    } else {
      NobodyArrives(s, st, c);
      hide AtBarrierOf, Basics, BarrierClosed;
    }
  }

  lemma ClosedKept(s: State, st: Step, c: nat)
    requires Basics(s) && Enabled(s, st) && c < |s.calls|
    requires !Released(s, c) && BarrierClosed(s, c) && !Released(Apply(s, st), c)
    ensures BarrierClosed(Apply(s, st), c)
  {
    ArrivalsCounted(s, st, c);
    var u := Apply(s, st);
    BasicsKept(s, st);
    forall t | t in u.calls[c].tickets && t < |u.taker|
      ensures Holds(u.workers[u.taker[t]].phase, t) || Parked(u.workers[u.taker[t]].phase, t)
    {
      TicketInHand(s, st, c, t);
    }
    NotReturned(s, st, c);
    hide Apply, Enabled, AtBarrierOf, Basics;
  }

  lemma NotReturned(s: State, st: Step, c: nat)
    requires Enabled(s, st) && c < |s.calls| && !Released(s, c) && !s.calls[c].caller.Returned?
    ensures |s.calls| <= |Apply(s, st).calls| && !Apply(s, st).calls[c].caller.Returned?
  {
  }

  // While the barrier is closed, a ticket once taken stays with the worker that took it.
  lemma TicketInHand(s: State, st: Step, c: nat, t: nat)
    requires Basics(s) && Enabled(s, st) && c < |s.calls| && !Released(s, c) && BarrierClosed(s, c)
    requires c < |Apply(s, st).calls| && t in Apply(s, st).calls[c].tickets && t < |Apply(s, st).taker|
    requires Apply(s, st).taker[t] < |Apply(s, st).workers|
    ensures var u := Apply(s, st);
      Holds(u.workers[u.taker[t]].phase, t) || Parked(u.workers[u.taker[t]].phase, t)
  {
    StepGrows(s, st);
    if t < |s.taker| {
      TicketsHeld(s, st, c, t);
      assert ForCall(s, t, c) && WorkerOk(s, s.taker[t]);
      HandKept(s, st, c, s.taker[t], t);
      hide Apply, Enabled;
    }
  }

  // The worker has taken barrier command i and has not left its barrier.
  predicate InHand(p: Phase, i: nat) {
    (p.Entering? || p.InBody? || p.Arriving? || p.AtBarrier?) && p.i == i
  }

  lemma HandKept(s: State, st: Step, c: nat, w: nat, i: nat)
    requires Enabled(s, st) && w < |s.workers| == |Apply(s, st).workers| && InHand(s.workers[w].phase, i)
    requires c < |s.calls| && !Released(s, c) && ForCall(s, i, c)
    ensures InHand(Apply(s, st).workers[w].phase, i)
  {
  }

  lemma TicketsHeld(s: State, st: Step, c: nat, t: nat)
    requires Basics(s) && Enabled(s, st) && c < |s.calls| && c < |Apply(s, st).calls|
    requires t in Apply(s, st).calls[c].tickets && t < |s.taker|
    ensures t in s.calls[c].tickets
  {
  }

  lemma FinishedKept(s: State, st: Step, i: nat)
    requires Enabled(s, st) && Finished(s, i)
    ensures Finished(Apply(s, st), i)
  {
  }

  // No worker runs f of a call whose barrier is open.
  lemma NoLateBody(s: State, c: nat, w: nat)
    requires Basics(s) && c < |s.calls| && BarrierOpen(s, c)
    requires w < |s.workers| && (s.workers[w].phase.Entering? || s.workers[w].phase.InBody?)
    ensures !ForCall(s, s.workers[w].phase.i, c)
  {
    assert WorkerOk(s, w);
    var i := s.workers[w].phase.i;
    if i in s.calls[c].tickets {
      var done := Finished(s, i);
    }
  }

  lemma NoLateArrival(s: State, st: Step, c: nat, w: nat)
    requires Basics(s) && Enabled(s, st) && c < |s.calls| && BarrierOpen(s, c)
    requires w < |s.workers| == |Apply(s, st).workers| && Apply(s, st).workers[w].phase.Arriving?
    ensures !ForCall(Apply(s, st), Apply(s, st).workers[w].phase.i, c)
  {
    assert WorkerOk(s, w);
    if st == EndBody(w) {
      NoLateBody(s, c, w);
    }
  }

  lemma OpenKept(s: State, st: Step, c: nat)
    requires Basics(s) && Enabled(s, st) && c < |s.calls| && Released(s, c) && BarrierOpen(s, c)
    ensures Released(Apply(s, st), c) && BarrierOpen(Apply(s, st), c)
  {
    var u := Apply(s, st);
    assert u.calls[c].tickets == s.calls[c].tickets;
    forall t, i | t in u.calls[c].tickets && 0 <= i <= t ensures Finished(u, i) {
      FinishedKept(s, st, i);
    }
    forall w | 0 <= w < u.tasks ensures Served(u, c, w) {
      assert Served(s, c, w);
      var t :| t in s.calls[c].tickets && TakenBy(s, t, w);
      assert TakenBy(u, t, w);
    }
    forall w | 0 <= w < |u.workers| && u.workers[w].phase.Arriving? ensures !ForCall(u, u.workers[w].phase.i, c) {
      NoLateArrival(s, st, c, w);
    }
  }

  lemma BarrierKept(s: State, st: Step, c: nat)
    requires Basics(s) && Accounted(s) && BarriersOk(s) && Enabled(s, st) && c < |Apply(s, st).calls|
    requires Basics(Apply(s, st)) && Accounted(Apply(s, st))
    ensures var t := Apply(s, st);
      (Released(t, c) ==> BarrierOpen(t, c)) && (!Released(t, c) ==> BarrierClosed(t, c))
  {
    var t := Apply(s, st);
    if c == |s.calls| {
      assert AtBarrierOf(t, c) == {} by {
        forall w: nat | w < |s.workers| ensures w !in AtBarrierOf(t, c) {
          assert WorkerOk(s, w);
        }
      }
    } else if Released(s, c) {
      OpenKept(s, st, c);
    } else if Released(t, c) {
      ArrivalsCounted(s, st, c);
      SubsetSize(AtBarrierOf(t, c), Below(t.tasks));
      FullBarrierOpens(t, c);
    } else {
      ClosedKept(s, st, c);
    }
  }

  // All of it

  ghost predicate Inv(s: State) {
    Basics(s) && Accounted(s) && MutexOk(s) && BarriersOk(s)
  }

  lemma InvInit(cap: nat, tasks: nat, mode: Mode)
    ensures Inv(Init(cap, tasks, mode))
  {
  }

  lemma InvKept(s: State, st: Step)
    requires Inv(s) && Enabled(s, st)
    ensures Inv(Apply(s, st))
  {
    hide Apply, Enabled, Basics, Accounted;
    BasicsKept(s, st);
    AccountedKept(s, st);
    forall c | 0 <= c < |Apply(s, st).calls| ensures MutexFor(Apply(s, st), c) {
      MutexKept(s, st, c);
    }
    forall c | 0 <= c < |Apply(s, st).calls|
      ensures Released(Apply(s, st), c) ==> BarrierOpen(Apply(s, st), c)
      ensures !Released(Apply(s, st), c) ==> BarrierClosed(Apply(s, st), c)
    {
      BarrierKept(s, st, c);
    }
  }

  lemma {:induction false} InvAlongRun(s: State, steps: seq<Step>)
    requires Inv(s) && CanRun(s, steps)
    ensures Inv(Run(s, steps))
    decreases |steps|
  {
    hide Apply, Enabled, Inv;
    if steps != [] {
      InvKept(s, steps[0]);
      InvAlongRun(Apply(s, steps[0]), steps[1..]);
    }
  }

  lemma ReachableInv(s: State)
    requires Reachable(s)
    ensures Inv(s)
  {
    InvInit(s.cap, s.tasks, s.mode);
    var steps :| CanRun(Init(s.cap, s.tasks, s.mode), steps) && Run(Init(s.cap, s.tasks, s.mode), steps) == s;
    InvAlongRun(Init(s.cap, s.tasks, s.mode), steps);
  }
}
