/** How `bio_thread_cleanup` of src/thread.c shuts a worker down: the retry loop for the terminate
    message, the final drain and the join, interleaved freely with the worker. */
module PoolShutdown {
  datatype Msg = Terminate | Task(id: nat)

  datatype Worker =
    | Idle
    | Fetched(msg: Msg)   // the task runs
    | Ran(msg: Msg)       // about to produce the response
    | Exited

  datatype Main =
    | Try      // bio_spscq_produce(terminate, no wait)
    | Block    // bio_spscq_consume(wait)
    | Drain    // bio_spscq_consume(no wait) until NULL, then retry
    | Final    // terminate sent: drain the responses
    | Join     // thrd_join
    | Done

  /** `ran` is history: the messages the worker has dealt with. */
  datatype State = State(
    queueSize: nat, requests: seq<Msg>, worker: Worker, responses: seq<Msg>, main: Main, ran: seq<Msg>)

  /** Any moment at which the pool may be shut down: jobs may be queued, running and unreported. */
  ghost predicate Init(s: State) {
    && s.queueSize > 0 && s.main.Try? && s.ran == []
    && |s.requests| <= s.queueSize && |s.responses| <= 2 * s.queueSize
    && Terminate !in s.requests && Terminate !in s.responses
    && !s.worker.Exited? && (s.worker.Fetched? || s.worker.Ran? ==> !s.worker.msg.Terminate?)
  }

  datatype Action = MainStep | WorkerStep

  predicate Enabled(s: State, a: Action) {
    match a
    case MainStep =>
      (match s.main
       case Block => s.responses != []
       case Join => s.worker.Exited?
       case Done => false
       case _ => true)
    case WorkerStep =>
      (match s.worker
       case Idle => s.requests != []
       case Fetched(_) => true
       case Ran(_) => |s.responses| < 2 * s.queueSize
       case Exited => false)
  }

  function Next(s: State, a: Action): State
    requires Enabled(s, a)
  {
    match a
    case MainStep =>
      (match s.main
       case Try =>
         if |s.requests| == s.queueSize then s.(main := Block)
         else s.(requests := s.requests + [Terminate], main := Final)
       case Block => s.(responses := s.responses[1..], main := Drain)
       case Drain => if s.responses != [] then s.(responses := s.responses[1..]) else s.(main := Try)
       case Final => if s.responses != [] then s.(responses := s.responses[1..]) else s.(main := Join)
       case Join => s.(main := Done)
       case Done => s)
    case WorkerStep =>
      (match s.worker
       case Idle => s.(requests := s.requests[1..], worker := Fetched(s.requests[0]))
       case Fetched(msg) => s.(worker := Ran(msg), ran := s.ran + [msg])
       case Ran(msg) => s.(responses := s.responses + [msg], worker := if msg.Terminate? then Exited else Idle)
       case Exited => s)
  }

  ghost predicate IsRun(actions: seq<Action>, states: seq<State>) {
    && |states| == |actions| + 1 && Init(states[0])
    && forall i | 0 <= i < |actions| :: Enabled(states[i], actions[i]) && states[i + 1] == Next(states[i], actions[i])
  }

  lemma RunStep(actions: seq<Action>, states: seq<State>, i: nat)
    requires IsRun(actions, states) && i < |actions|
    ensures Enabled(states[i], actions[i]) && states[i + 1] == Next(states[i], actions[i])
  {
  }

  // ----- invariant -----

  predicate Sent(m: Main) {
    m.Final? || m.Join? || m.Done?
  }

  predicate InHand(w: Worker) {
    w.Fetched? || w.Ran?
  }

  function Remaining(s: State): nat {
    |s.requests| + (if InHand(s.worker) then 1 else 0) + |s.responses|
  }

  /** Where the terminate message is: nowhere before it is sent, afterwards behind every other message. */
  ghost predicate TerminateLast(s: State) {
    && (forall i | 0 <= i < |s.requests| - 1 :: !s.requests[i].Terminate?)
    && (s.requests != [] ==> (s.requests[|s.requests| - 1].Terminate? <==> Sent(s.main)))
    && (InHand(s.worker) ==> (s.worker.msg.Terminate? <==> Sent(s.main) && s.requests == []))
    && (s.worker.Idle? && Sent(s.main) ==> s.requests != [])
    && (s.worker.Exited? ==> Sent(s.main) && s.requests == [])
  }

  ghost predicate Inv(s: State) {
    && s.queueSize > 0
    && |s.requests| <= s.queueSize && |s.responses| <= 2 * s.queueSize
    && TerminateLast(s)
    && (s.main.Block? ==> Remaining(s) > 0)
    && (s.main.Join? ==> Remaining(s) <= s.queueSize + 1)
    && (s.main.Done? ==> s.worker.Exited?)
  }

  lemma StepKeepsInv(s: State, a: Action)
    requires Inv(s) && Enabled(s, a)
    ensures Inv(Next(s, a))
  {
    if a.WorkerStep? && s.worker.Idle? {
      assert forall i | 0 <= i < |s.requests| - 1 :: s.requests[1..][i] == s.requests[i + 1];
    }
  }

  lemma {:induction false} RunKeepsInv(actions: seq<Action>, states: seq<State>, n: nat)
    requires IsRun(actions, states) && n <= |actions|
    ensures Inv(states[n])
  {
    if n > 0 {
      RunKeepsInv(actions, states, n - 1);
      RunStep(actions, states, n - 1);
      StepKeepsInv(states[n - 1], actions[n - 1]);
    }
  }

  // ----- termination -----

  /** An upper bound on the number of steps left. */
  function Measure(s: State): nat {
    6 * |s.requests| + 3 * |s.responses|
    + (match s.worker
       case Fetched(_) => 5
       case Ran(_) => 4
       case _ => 0)
    + (match s.main
       case Drain => 13
       case Try => 12
       case Block => 11
       case Final => 2
       case Join => 1
       case Done => 0)
  }

  lemma StepDecreases(s: State, a: Action)
    requires Enabled(s, a)
    ensures Measure(Next(s, a)) < Measure(s)
  {
  }

  lemma {:induction false} RunIsBounded(actions: seq<Action>, states: seq<State>, n: nat)
    requires IsRun(actions, states) && n <= |actions|
    ensures n + Measure(states[n]) <= Measure(states[0])
  {
    if n > 0 {
      RunIsBounded(actions, states, n - 1);
      RunStep(actions, states, n - 1);
      StepDecreases(states[n - 1], actions[n - 1]);
    }
  }

  /** Shutdown never deadlocks: until the main thread has joined the worker, one of the two can step.
      While the main thread waits for a response, one is on its way; once it waits to join, at most
      queueSize + 1 messages are left, the response queue has room for all of them, and the worker
      can step until it has exited. */
  lemma ShutdownCannotDeadlock(actions: seq<Action>, states: seq<State>, n: nat)
    requires IsRun(actions, states) && n <= |actions|
    ensures var s := states[n];
      && (!s.main.Done? ==> Enabled(s, MainStep) || Enabled(s, WorkerStep))
      && (s.main.Block? ==> Remaining(s) > 0)
      && (s.main.Join? ==>
            Remaining(s) <= s.queueSize + 1 <= 2 * s.queueSize && (Enabled(s, WorkerStep) || s.worker.Exited?))
  {
    RunKeepsInv(actions, states, n);
  }

  /** Shutdown terminates under every interleaving, without any fairness assumption: no run is longer
      than a bound known at its start, and a run that cannot go on has joined the worker. */
  lemma ShutdownTerminates(actions: seq<Action>, states: seq<State>)
    requires IsRun(actions, states)
    ensures |actions| <= Measure(states[0]) <= 12 * states[0].queueSize + 17
    ensures var s := states[|actions|];
      (forall a :: !Enabled(s, a)) ==> s.main.Done? && s.worker.Exited?
  {
    RunIsBounded(actions, states, |actions|);
    RunKeepsInv(actions, states, |actions|);
    var s := states[|actions|];
    if forall a :: !Enabled(s, a) {
      assert !Enabled(s, MainStep) && !Enabled(s, WorkerStep);
    }
  }

  // ----- no task is dropped -----

  /** What the worker has dealt with, deals with and has yet to deal with. */
  function Line(s: State): seq<Msg> {
    s.ran + (if s.worker.Fetched? then [s.worker.msg] else []) + s.requests
  }

  function Added(s: State): seq<Msg> {
    if Sent(s.main) then [Terminate] else []
  }

  lemma StepKeepsLine(s: State, a: Action)
    requires Enabled(s, a)
    ensures Line(Next(s, a)) == Line(s) || (Line(Next(s, a)) == Line(s) + [Terminate] && !Sent(s.main))
    ensures Line(Next(s, a)) == Line(s) <==> (Sent(Next(s, a).main) <==> Sent(s.main))
  {
    if a.MainStep? && s.main.Try? && |s.requests| < s.queueSize {
      var held := s.ran + (if s.worker.Fetched? then [s.worker.msg] else []);
      assert held + (s.requests + [Terminate]) == held + s.requests + [Terminate];
    } else if a.WorkerStep? && s.worker.Idle? {
      assert [s.requests[0]] + s.requests[1..] == s.requests;
      assert s.ran + [s.requests[0]] + s.requests[1..] == s.ran + [] + s.requests;
    }
  }

  lemma {:induction false} RunKeepsLine(actions: seq<Action>, states: seq<State>, n: nat)
    requires IsRun(actions, states) && n <= |actions|
    ensures Line(states[n]) == Line(states[0]) + Added(states[n])
  {
    if n > 0 {
      RunKeepsLine(actions, states, n - 1);
      RunStep(actions, states, n - 1);
      StepKeepsLine(states[n - 1], actions[n - 1]);
    }
  }

  /** Before it is joined, the worker has dealt with every task that was in its hands or queued when the shutdown
      began, in order, and with the terminate message last. */
  lemma ShutdownRunsAll(actions: seq<Action>, states: seq<State>, n: nat)
    requires IsRun(actions, states) && n <= |actions| && states[n].main.Done?
    ensures states[n].ran ==
      (if states[0].worker.Fetched? then [states[0].worker.msg] else []) + states[0].requests + [Terminate]
  {
    RunKeepsInv(actions, states, n);
    RunKeepsLine(actions, states, n);
    var s := states[n];
    assert s.worker.Exited? && s.requests == [];
    assert s.ran + [] + [] == s.ran && [] + (if states[0].worker.Fetched? then [states[0].worker.msg] else [])
      == (if states[0].worker.Fetched? then [states[0].worker.msg] else []);
  }
}
