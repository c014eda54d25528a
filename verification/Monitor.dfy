// BlockingQueue step by step: any number of threads, each at its own place in try_enqueue,
// try_dequeue or wait_empty, with the flags mutex, the elements mutex and the wait sets of the two
// condition variables. Wake-ups may be spurious, and a call with a finite timeout may expire.
module Monitor {

  import opened Wrappers

  datatype Call = Enq(e: int) | Deq | WaitEmpty

  datatype Result = Enqueued | Refused(e: int) | Dequeued(e: int) | Nothing | EmptyIs(b: bool)

  datatype Pc =
    | Idle
    | Locking(call: Call, timed: bool)               // waits for the flags mutex
    | Testing(call: Call, timed: bool)               // holds flags, at the head of the wait loop
    | Asleep(call: Call, timed: bool)                // in the wait set of its condition variable
    | Woken(call: Call, timed: bool, expired: bool)  // out of the wait set, waits for flags again
    | Late(call: Call)                               // holds flags, out of time
    | Acting(call: Call, timed: bool)                // holds flags, loop left, about to lock elements
    | Changed(call: Call, result: Result)            // holds both, deque changed
    | Notified(call: Call, result: Result)           // holds both, flag cleared and notify_one done
    | Answering(result: Result)                      // holds nothing, about to return
  {
    predicate HoldsFlags() {
      Testing? || Late? || Acting? || Changed? || Notified?
    }

    predicate HoldsElements() {
      Changed? || Notified?
    }

    predicate SleepsOnEmpty() {
      Asleep? && !call.Enq?
    }

    predicate SleepsOnFull() {
      Asleep? && call.Enq?
    }
  }

  datatype State = State(
    cap: nat,
    elements: seq<int>,
    empty: bool,
    full: bool,
    holder: Option<nat>,       // of the flags mutex
    pcs: seq<Pc>,
    pushed: seq<int>,          // history: everything ever put in
    popped: seq<int>)          // history: everything ever taken out

  function Init(cap: nat, threads: nat): State {
    State(cap, [], true, false, None, seq(threads, _ => Idle), [], [])
  }

  datatype Step =
    | Invoke(t: nat, call: Call, timed: bool)
    | Lock(t: nat)
    | Test(t: nat)
    | Spurious(t: nat)
    | Expire(t: nat)                        // the timer of wait_timeout fires
    | Relock(t: nat)
    | RelockLate(t: nat)                    // woken in time, but elapsed >= t by the clock
    | GiveUp(t: nat)
    | Change(t: nat)
    | Notify(t: nat, target: Option<nat>)   // notify_one wakes the target
    | Release(t: nat)                       // with notify_all on the full or empty edge
    | Return(t: nat)

  predicate Blocked(s: State, call: Call) {
    match call
    case Enq(_) => s.full
    case Deq => s.empty
    case WaitEmpty => !s.empty
  }

  // The sleepers notify_one chooses from: consumers and wait_empty callers share `empty`.
  predicate Wakes(s: State, call: Call, u: nat) {
    u < |s.pcs| && (if call.Enq? then s.pcs[u].SleepsOnEmpty() else s.pcs[u].SleepsOnFull())
  }

  predicate Enabled(s: State, st: Step) {
    st.t < |s.pcs| &&
    var pc := s.pcs[st.t];
    match st
    case Invoke(_, _, _) => pc.Idle?
    case Lock(_) => pc.Locking? && s.holder.None?
    case Test(_) => pc.Testing?
    case Spurious(_) => pc.Asleep?
    case Expire(_) => pc.Asleep? && pc.timed
    case Relock(_) => pc.Woken? && s.holder.None?
    case RelockLate(_) => pc.Woken? && pc.timed && s.holder.None?
    case GiveUp(_) => pc.Late?
    case Change(_) => pc.Acting?
    case Notify(_, target) =>
      pc.Changed? && (target.Some? ==> Wakes(s, pc.call, target.value))
      && (target.None? ==> forall u :: 0 <= u < |s.pcs| ==> !Wakes(s, pc.call, u))
    case Release(_) => pc.Notified?
    case Return(_) => pc.Answering?
  }

  function SetPc(s: State, t: nat, pc: Pc): State
    requires t < |s.pcs|
  {
    s.(pcs := s.pcs[t := pc])
  }

  function Wake(pc: Pc): Pc {
    if pc.Asleep? then Woken(pc.call, pc.timed, false) else pc
  }

  function WakeAll(pcs: seq<Pc>, onFull: bool): seq<Pc> {
    seq(|pcs|, u requires 0 <= u < |pcs| =>
      if (if onFull then pcs[u].SleepsOnFull() else pcs[u].SleepsOnEmpty()) then Wake(pcs[u]) else pcs[u])
  }

  function OutOfTime(s: State, call: Call): Result {
    match call
    case Enq(e) => Refused(e)
    case Deq => Nothing
    case WaitEmpty => EmptyIs(s.empty)
  }

  function Apply(s: State, st: Step): State
    requires Enabled(s, st)
  {
    var pc := s.pcs[st.t];
    match st
    case Invoke(t, call, timed) => SetPc(s, t, Locking(call, timed))
    case Lock(t) => SetPc(s.(holder := Some(t)), t, Testing(pc.call, pc.timed))
    case Test(t) =>
      if Blocked(s, pc.call) then SetPc(s.(holder := None), t, Asleep(pc.call, pc.timed))
      else if pc.call.WaitEmpty? then SetPc(s.(holder := None), t, Answering(EmptyIs(s.empty)))
      else SetPc(s, t, Acting(pc.call, pc.timed))
    case Spurious(t) => SetPc(s, t, Woken(pc.call, pc.timed, false))
    case Expire(t) => SetPc(s, t, Woken(pc.call, pc.timed, true))
    case Relock(t) =>
      SetPc(s.(holder := Some(t)), t, if pc.expired then Late(pc.call) else Testing(pc.call, pc.timed))
    case RelockLate(t) => SetPc(s.(holder := Some(t)), t, Late(pc.call))
    case GiveUp(t) => SetPc(s.(holder := None), t, Answering(OutOfTime(s, pc.call)))
    case Change(t) =>
      if pc.call.Enq? then
        SetPc(s.(elements := s.elements + [pc.call.e], pushed := s.pushed + [pc.call.e]), t, Changed(pc.call, Enqueued))
      else if s.elements == [] then SetPc(s, t, Changed(pc.call, Nothing))
      else
        SetPc(s.(elements := s.elements[1..], popped := s.popped + [s.elements[0]]), t,
              Changed(pc.call, Dequeued(s.elements[0])))
    case Notify(t, target) =>
      var pcs := if target.Some? then s.pcs[target.value := Wake(s.pcs[target.value])] else s.pcs;
      if pc.call.Enq? then s.(empty := false, pcs := pcs[t := Notified(pc.call, pc.result)])
      else s.(full := false, pcs := pcs[t := Notified(pc.call, pc.result)])
    case Release(t) =>
      var pcs := s.pcs[t := Answering(pc.result)];
      if pc.call.Enq? then
        if |s.elements| == s.cap then s.(holder := None, full := true, pcs := WakeAll(pcs, true))
        else s.(holder := None, pcs := pcs)
      else
        if s.elements == [] then s.(holder := None, empty := true, pcs := WakeAll(pcs, false))
        else s.(holder := None, pcs := pcs)
    case Return(t) => SetPc(s, t, Idle)
  }

  // Runs

  predicate CanRun(s: State, steps: seq<Step>)
    decreases |steps|
  {
    steps == [] || (Enabled(s, steps[0]) && CanRun(Apply(s, steps[0]), steps[1..]))
  }

  function Run(s: State, steps: seq<Step>): State
    requires CanRun(s, steps)
    decreases |steps|
  {
    if steps == [] then s else Run(Apply(s, steps[0]), steps[1..])
  }

  ghost predicate Leads(s: State, t: State) {
    exists steps :: CanRun(s, steps) && Run(s, steps) == t
  }

  ghost predicate Reachable(s: State) {
    Leads(Init(s.cap, |s.pcs|), s)
  }

  lemma {:induction false} RunOneMore(s: State, xs: seq<Step>, st: Step)
    requires CanRun(s, xs) && Enabled(Run(s, xs), st)
    ensures CanRun(s, xs + [st]) && Run(s, xs + [st]) == Apply(Run(s, xs), st)
    decreases |xs|
  {
    if xs == [] {
      assert [st][1..] == [];
      assert CanRun(Apply(s, st), [st][1..]);
      assert xs + [st] == [st];
    } else {
      RunOneMore(Apply(s, xs[0]), xs[1..], st);
      assert (xs + [st])[1..] == xs[1..] + [st];
    }
  }

  lemma LeadsStart(s: State)
    ensures Leads(s, s)
  {
    assert CanRun(s, []) && Run(s, []) == s;
  }

  lemma LeadsStep(s: State, t: State, st: Step)
    requires Leads(s, t) && Enabled(t, st)
    ensures Leads(s, Apply(t, st))
  {
    var steps :| CanRun(s, steps) && Run(s, steps) == t;
    RunOneMore(s, steps, st);
  }

  // The invariant

  ghost predicate MutexOk(s: State) {
    && (s.holder.Some? ==> s.holder.value < |s.pcs|)
    && (forall t :: 0 <= t < |s.pcs| ==> (s.pcs[t].HoldsFlags() <==> s.holder == Some(t)))
  }

  // The thread that holds the flags mutex, or Idle.
  function Inside(s: State): Pc {
    if s.holder.Some? && s.holder.value < |s.pcs| then s.pcs[s.holder.value] else Idle
  }

  predicate TrueFlags(s: State) {
    && (s.empty <==> s.elements == [])
    && (s.full <==> s.elements != [] && |s.elements| == s.cap)
  }

  predicate TookLast(s: State, result: Result) {
    s.popped != [] && result == Dequeued(s.popped[|s.popped| - 1])
  }

  // What the flags say, wherever the thread inside is.
  predicate FlagsOk(s: State) {
    match Inside(s)
    case Acting(call, _) => TrueFlags(s) && !call.WaitEmpty? && !Blocked(s, call)
    case Changed(call, result) =>
      if call.Enq? then result == Enqueued && s.elements != [] && !s.full && (s.cap > 0 ==> |s.elements| <= s.cap)
      else call.Deq? && TookLast(s, result) && !s.empty && (s.cap > 0 ==> |s.elements| < s.cap)
    case Notified(call, result) =>
      && !s.empty && !s.full
      && (if call.Enq? then result == Enqueued && s.elements != [] && (s.cap > 0 ==> |s.elements| <= s.cap)
          else call.Deq? && TookLast(s, result) && (s.cap > 0 ==> |s.elements| < s.cap))
    case _ => TrueFlags(s)
  }

  ghost predicate Inv(s: State) {
    && MutexOk(s)
    && FlagsOk(s)
    && (s.cap > 0 ==> |s.elements| <= s.cap)
    && s.pushed == s.popped + s.elements
  }

  lemma MutexKeptFor(s: State, st: Step, u: nat)
    requires MutexOk(s) && Enabled(s, st) && u < |s.pcs| == |Apply(s, st).pcs|
    ensures Apply(s, st).pcs[u].HoldsFlags() <==> Apply(s, st).holder == Some(u)
  {
    if u != st.t {
      OthersHold(s, st, u);
      HolderChanges(s, st);
      hide Apply, Enabled;
    }
  }

  lemma OthersHold(s: State, st: Step, u: nat)
    requires Enabled(s, st) && u < |s.pcs| == |Apply(s, st).pcs| && u != st.t
    ensures Apply(s, st).pcs[u].HoldsFlags() <==> s.pcs[u].HoldsFlags()
  {
  }

  lemma HolderChanges(s: State, st: Step)
    requires MutexOk(s) && Enabled(s, st)
    ensures Apply(s, st).holder == s.holder ||
      (s.holder == None && Apply(s, st).holder == Some(st.t)) || (s.holder == Some(st.t) && Apply(s, st).holder == None)
  {
  }

  lemma ShapeKept(s: State, st: Step)
    requires MutexOk(s) && Enabled(s, st)
    ensures Apply(s, st).cap == s.cap && |Apply(s, st).pcs| == |s.pcs|
    ensures Apply(s, st).holder.Some? ==> Apply(s, st).holder.value < |s.pcs|
  {
  }

  lemma MutexKept(s: State, st: Step)
    requires MutexOk(s) && Enabled(s, st)
    ensures MutexOk(Apply(s, st))
    ensures Apply(s, st).cap == s.cap && |Apply(s, st).pcs| == |s.pcs|
  {
    ShapeKept(s, st);
    hide Apply, Enabled;
    forall u: nat | u < |s.pcs|
      ensures Apply(s, st).pcs[u].HoldsFlags() <==> Apply(s, st).holder == Some(u)
    {
      MutexKeptFor(s, st, u);
    }
  }

  lemma FlagsKept(s: State, st: Step)
    requires Inv(s) && Enabled(s, st) && MutexOk(Apply(s, st))
    ensures FlagsOk(Apply(s, st))
  {
    if st.Change? || st.Notify? || st.Release? {
      FlagsChanged(s, st);
    } else {
      FlagsSame(s, st);
    }
  }

  lemma FlagsChanged(s: State, st: Step)
    requires Inv(s) && Enabled(s, st) && MutexOk(Apply(s, st)) && (st.Change? || st.Notify? || st.Release?)
    ensures FlagsOk(Apply(s, st))
  {
  }

  lemma FlagsSame(s: State, st: Step)
    requires Inv(s) && Enabled(s, st) && MutexOk(Apply(s, st)) && !st.Change? && !st.Notify? && !st.Release?
    ensures FlagsOk(Apply(s, st))
  {
  }

  lemma BoundKept(s: State, st: Step)
    requires Inv(s) && Enabled(s, st)
    ensures s.cap > 0 ==> |Apply(s, st).elements| <= s.cap
    ensures Apply(s, st).pushed == Apply(s, st).popped + Apply(s, st).elements
  {
  }

  lemma InvKept(s: State, st: Step)
    requires Inv(s) && Enabled(s, st)
    ensures Inv(Apply(s, st))
    ensures Apply(s, st).cap == s.cap && |Apply(s, st).pcs| == |s.pcs|
  {
    hide Apply, Enabled, FlagsOk, MutexOk;
    MutexKept(s, st);
    FlagsKept(s, st);
    BoundKept(s, st);
  }

  lemma {:induction false} InvAlongRun(s: State, steps: seq<Step>)
    requires Inv(s) && CanRun(s, steps)
    ensures Inv(Run(s, steps)) && Run(s, steps).cap == s.cap && |Run(s, steps).pcs| == |s.pcs|
    decreases |steps|
  {
    hide Apply, Enabled, Inv;
    if steps != [] {
      InvKept(s, steps[0]);
      InvAlongRun(Apply(s, steps[0]), steps[1..]);
    }
  }

  lemma ReachableInv(s: State)
    requires Reachable(s)
    ensures Inv(s)
  {
    var s0 := Init(s.cap, |s.pcs|);
    var steps :| CanRun(s0, steps) && Run(s0, steps) == s;
    InvAlongRun(s0, steps);
  }

  // Whenever the flags mutex is free the cached flags agree with the deque; in any state, also
  // for a reader that looks at the deque between the steps of the others, it is within bounds;
  // and its history is first in, first out.
  lemma FlagsAgree(s: State)
    requires Reachable(s)
    ensures s.holder.None? ==> (s.empty <==> s.elements == []) && (s.full <==> s.elements != [] && |s.elements| == s.cap)
    ensures s.cap > 0 ==> |s.elements| <= s.cap
    ensures s.pushed == s.popped + s.elements
  {
    ReachableInv(s);
  }

  // A dequeue that did not run out of time has an element to return, the one it took.
  lemma InTimeDequeueReturnsSome(s: State, t: nat)
    requires Reachable(s) && t < |s.pcs| && s.pcs[t].Notified? && s.pcs[t].call.Deq?
    ensures s.popped != [] && s.pcs[t].result == Dequeued(s.popped[|s.popped| - 1])
  {
    ReachableInv(s);
  }
}
