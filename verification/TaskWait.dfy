/** Waiting for background tasks: an atomic counter, and a wake-up channel with room for one token.
    Each task ends in two separate steps, so every interleaving of tasks and waiter is a run. */
module TaskWait {
  // Where WaitForGoroutines is: not called, about to read the counter, at the receive, or back.
  datatype Waiter = Idle | Checking | Parked | Returned

  // Tasks are told apart only by how far they have got: running, or past the decrement and
  // before the signal.
  datatype State = State(count: int, running: nat, signalling: nat, token: bool, waiter: Waiter,
                         started: nat, signalled: nat, received: nat)

  datatype Step = Start | End | Signal | Wait | Check | Receive

  predicate AtRest(st: State) { st == State(0, 0, 0, false, Idle, 0, 0, 0) }

  predicate Enabled(st: State, step: Step) {
    match step
    case Start => true
    case End => st.running > 0
    case Signal => st.signalling > 0
    case Wait => st.waiter == Idle
    case Check => st.waiter == Checking
    case Receive => st.waiter == Parked && st.token
  }

  function Next(st: State, step: Step): State
    requires Enabled(st, step)
  {
    match step
    case Start => st.(count := st.count + 1, running := st.running + 1, started := st.started + 1)
    case End => st.(running := st.running - 1, count := st.count - 1, signalling := st.signalling + 1)
    // the send is not waited for: a channel that holds a token already keeps that one
    case Signal => st.(signalling := st.signalling - 1, signalled := st.signalled + 1, token := true)
    case Wait => st.(waiter := Checking)
    case Check => st.(waiter := if st.count != 0 then Parked else Returned)
    case Receive => st.(token := false, waiter := Checking, received := st.received + 1)
  }

  predicate Possible(st: State, steps: seq<Step>)
    decreases |steps|
  {
    steps != [] ==> Enabled(st, steps[0]) && Possible(Next(st, steps[0]), steps[1..])
  }

  function Run(st: State, steps: seq<Step>): State
    requires Possible(st, steps)
    decreases |steps|
  {
    if steps == [] then st else Run(Next(st, steps[0]), steps[1..])
  }

  ghost predicate Sound(st: State) {
    && st.count == st.running
    && st.started == st.running + st.signalling + st.signalled
    && st.received + (if st.token then 1 else 0) <= st.signalled
    && (st.waiter == Parked ==> st.running > 0 || st.signalling > 0 || st.token)
  }

  lemma {:induction false} RunSound(st: State, steps: seq<Step>)
    requires Sound(st) && Possible(st, steps)
    ensures Sound(Run(st, steps))
    decreases |steps|
  {
    if steps != [] {
      RunSound(Next(st, steps[0]), steps[1..]);
    }
  }

  // No wake-up is lost: a waiter that is parked once every task has decremented and signalled has a
  // token to take. The counter is never negative, and the waiter receives at most once per task.
  lemma {:induction false} NoLostWakeup(begin: State, steps: seq<Step>)
    requires AtRest(begin) && Possible(begin, steps)
    ensures var st := Run(begin, steps);
      && (st.waiter == Parked && st.running == 0 && st.signalling == 0 ==> st.token)
      && 0 <= st.count <= st.started && st.received <= st.signalled <= st.started
  {
    hide Possible, Run;
    RunSound(begin, steps);
  }

  // The wait comes back exactly from a reading of zero, when no task is before its decrement.
  lemma {:induction false} ReturnsAtZero(begin: State, steps: seq<Step>, step: Step)
    requires AtRest(begin) && Possible(begin, steps)
    requires Enabled(Run(begin, steps), step) && Run(begin, steps).waiter != Returned
    ensures var st := Run(begin, steps);
      Next(st, step).waiter == Returned <==> step == Check && st.running == 0
  {
    hide Possible, Run;
    RunSound(begin, steps);
  }

  // ---- Progress ----

  function Starts(steps: seq<Step>): nat {
    if steps == [] then 0 else (if steps[0] == Start then 1 else 0) + Starts(steps[1..])
  }

  function Work(st: State): nat {
    4 * st.running + 3 * st.signalling + (if st.token then 2 else 0) +
    match st.waiter { case Idle => 2 case Checking => 1 case Parked => 0 case Returned => 0 }
  }

  // However the steps interleave: five for each task started, its start included, and what was left to do.
  lemma {:induction false} RunsAreBounded(st: State, steps: seq<Step>)
    requires Possible(st, steps)
    ensures Work(Run(st, steps)) + |steps| <= Work(st) + 5 * Starts(steps)
    decreases |steps|
  {
    if steps != [] {
      RunsAreBounded(Next(st, steps[0]), steps[1..]);
    }
  }

  // A run stops, no new task being started, only after the wait has come back and every task has
  // finished: with the bound above, the wait always comes back.
  lemma {:induction false} StopsOnlyWhenReturned(begin: State, steps: seq<Step>)
    requires AtRest(begin) && Possible(begin, steps)
    requires forall step :: step != Start ==> !Enabled(Run(begin, steps), step)
    ensures var st := Run(begin, steps); st.waiter == Returned && st.running == 0 && st.signalling == 0
  {
    hide Possible, Run;
    RunSound(begin, steps);
    var st := Run(begin, steps);
    assert !Enabled(st, End) && !Enabled(st, Signal) && !Enabled(st, Wait);
    assert !Enabled(st, Check) && !Enabled(st, Receive);
  }

  // Receives during a wait: one for each task that signals in the meantime, and one for a token
  // left over from before.
  lemma {:induction false} ReceivesBounded(st: State, steps: seq<Step>)
    requires Possible(st, steps)
    ensures var r := Run(st, steps);
      r.received + (if r.token then 1 else 0) - st.received <= r.signalled - st.signalled + (if st.token then 1 else 0)
    decreases |steps|
  {
    if steps != [] {
      ReceivesBounded(Next(st, steps[0]), steps[1..]);
    }
  }
}
