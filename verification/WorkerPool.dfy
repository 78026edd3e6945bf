/** The worker pool of src/thread.c together with the futex handshake of src/linux/platform.c that
    lets a worker interrupt the event loop's wait.  The queues are the bounded FIFOs that module
    SpscQueue implements; the main thread and the workers interleave freely. */
module WorkerPool {
  import opened Bits

  type Job = nat

  /** Where a worker is inside `bio_async_worker`. */
  datatype Phase =
    | Idle               // about to consume a request
    | Fetched(job: Job)  // about to run the task
    | Ran(job: Job)      // task returned; about to produce the response
    | Notify             // response published; about to increment the notification counter
    | Wake               // counter incremented; about to issue the futex wake

  datatype Worker = Worker(requests: seq<Job>, phase: Phase, responses: seq<Job>, load: int)

  /** Where the main thread is: `bio_loop` lines 33-137 and `bio_platform_update` lines 149-175. */
  datatype MainPc =
    | Coroutines                       // coroutines run
    | Update(i: nat, first: bool)      // bio_thread_update before (first) or after the wait, at worker i
    | Platform                         // bio_platform_update is called
    | Load(notifiable: bool)           // load the notification counter and compare with ack_counter
    | Absorb(loaded: nat, seen: nat)   // a notification was found: acknowledge it without waiting
    | Arm                              // submit the futex wait: the kernel compares once more
    | Blocked(armed: bool)             // inside io_uring_submit_and_wait
    | Woken                            // the wait returned; reload the counter into ack_counter

  datatype State = State(
    queueSize: nat,                    // capacity of a request queue; responses have twice as much
    workers: seq<Worker>,
    numRunning: int,                   // num_running_async_jobs
    counter: nat,                      // notification_counter, 32 bits
    ack: nat,                          // ack_counter, 32 bits
    main: MainPc,
    accepted: seq<Job>,                // history: jobs submitted
    executed: seq<Job>,                // history: tasks that have returned
    done: seq<Job>,                    // history: jobs whose signal was raised
    notified: nat,                     // history: how often a worker notified
    absorbed: nat                      // history: how many notifications ack_counter accounts for
  )

  ghost predicate Init(s: State) {
    && s.queueSize > 0 && |s.workers| > 0
    && (forall w | 0 <= w < |s.workers| :: s.workers[w] == Worker([], Idle, [], 0))
    && s.numRunning == 0 && s.counter == 0 && s.ack == 0 && s.main == Coroutines
    && s.accepted == [] && s.executed == [] && s.done == [] && s.notified == 0 && s.absorbed == 0
  }

  // ----- steps -----

  datatype Action =
    // main thread
    | Submit(w: nat, job: Job)   // bio_run_async: produce to the least loaded worker
    | TakeEarly(w: nat)          // bio_run_async: drain a response before submitting
    | EndRound
    | Take                       // bio_thread_drain_responses: a response was consumed
    | NextWorker                 // ... the queue was empty
    | DontWait(update: bool)     // bio_platform_update with timeout 0
    | DoWait
    | LoadCounter
    | AbsorbCounter
    | ArmFutex
    | OtherEvent                 // I/O completion or timeout
    | Acknowledge
    // worker w
    | Fetch(w: nat)
    | Run(w: nat)
    | Respond(w: nat)
    | Increment(w: nat)
    | FutexWake(w: nat)

  predicate ByWorker(a: Action) {
    a.Fetch? || a.Run? || a.Respond? || a.Increment? || a.FutexWake?
  }

  /** The first worker of minimal load. */
  ghost predicate LeastLoaded(ws: seq<Worker>, w: nat) {
    && w < |ws|
    && forall j | 0 <= j < |ws| :: if j < w then ws[j].load > ws[w].load else ws[j].load >= ws[w].load
  }

  ghost predicate Enabled(s: State, a: Action) {
    match a
    case Submit(w, job) =>
      && s.main.Coroutines? && LeastLoaded(s.workers, w) && |s.workers[w].requests| < s.queueSize && job !in s.accepted
    case TakeEarly(w) => s.main.Coroutines? && w < |s.workers| && s.workers[w].responses != []
    case EndRound => s.main.Coroutines?
    case Take => s.main.Update? && s.main.i < |s.workers| && s.workers[s.main.i].responses != []
    case NextWorker => s.main.Update? && s.main.i < |s.workers| && s.workers[s.main.i].responses == []
    case DontWait(_) => s.main.Platform?
    case DoWait => s.main.Platform?
    case LoadCounter => s.main.Load?
    case AbsorbCounter => s.main.Absorb?
    case ArmFutex => s.main.Arm?
    case OtherEvent => s.main.Blocked?
    case Acknowledge => s.main.Woken?
    case Fetch(w) => w < |s.workers| && s.workers[w].phase.Idle? && s.workers[w].requests != []
    case Run(w) => w < |s.workers| && s.workers[w].phase.Fetched?
    case Respond(w) => w < |s.workers| && s.workers[w].phase.Ran? && |s.workers[w].responses| < 2 * s.queueSize
    case Increment(w) => w < |s.workers| && s.workers[w].phase.Notify?
    case FutexWake(w) => w < |s.workers| && s.workers[w].phase.Wake?
  }

  /** One response is consumed: raise the job's signal and adjust the counters. */
  function Drained(s: State, w: nat): State
    requires w < |s.workers| && s.workers[w].responses != []
  {
    var x := s.workers[w];
    s.(workers := s.workers[w := x.(responses := x.responses[1..], load := x.load - 1)],
       numRunning := s.numRunning - 1, done := s.done + [x.responses[0]])
  }

  function SetWorker(s: State, w: nat, x: Worker): State
    requires w < |s.workers|
  {
    s.(workers := s.workers[w := x])
  }

  ghost function Next(s: State, a: Action): State
    requires Enabled(s, a)
  {
    match a
    case Submit(w, job) =>
      var x := s.workers[w];
      SetWorker(s, w, x.(requests := x.requests + [job], load := x.load + 1))
        .(numRunning := s.numRunning + 1, accepted := s.accepted + [job])
    case TakeEarly(w) => Drained(s, w)
    case EndRound => s.(main := Update(0, true))
    case Take => Drained(s, s.main.i)
    case NextWorker =>
      s.(main := if s.main.i + 1 < |s.workers| then Update(s.main.i + 1, s.main.first)
                 else if s.main.first then Platform else Coroutines)
    case DontWait(update) => s.(main := if update then Update(0, false) else Coroutines)
    case DoWait => s.(main := Load(s.numRunning > 0))
    case LoadCounter =>
      s.(main := if s.ack != s.counter then Absorb(s.counter, s.notified)
                 else if s.main.notifiable then Arm else Blocked(false))
    case AbsorbCounter => s.(ack := s.main.loaded, absorbed := s.main.seen, main := Update(0, false))
    case ArmFutex => s.(main := if s.counter == s.ack then Blocked(true) else Woken)
    case OtherEvent => s.(main := Woken)
    case Acknowledge => s.(ack := s.counter, absorbed := s.notified, main := Update(0, false))
    case Fetch(w) =>
      var x := s.workers[w];
      SetWorker(s, w, x.(requests := x.requests[1..], phase := Fetched(x.requests[0])))
    case Run(w) =>
      var x := s.workers[w];
      SetWorker(s, w, x.(phase := Ran(x.phase.job))).(executed := s.executed + [x.phase.job])
    case Respond(w) =>
      var x := s.workers[w];
      SetWorker(s, w, x.(phase := Notify, responses := x.responses + [x.phase.job]))
    case Increment(w) =>
      SetWorker(s, w, s.workers[w].(phase := Wake)).(counter := (s.counter + 1) % U32, notified := s.notified + 1)
    case FutexWake(w) =>
      SetWorker(s, w, s.workers[w].(phase := Idle)).(main := if s.main == Blocked(true) then Woken else s.main)
  }

  ghost predicate IsRun(actions: seq<Action>, states: seq<State>) {
    && |states| == |actions| + 1
    && Init(states[0])
    && forall i | 0 <= i < |actions| :: Enabled(states[i], actions[i]) && states[i + 1] == Next(states[i], actions[i])
  }

  lemma RunStep(actions: seq<Action>, states: seq<State>, i: nat)
    requires IsRun(actions, states) && i < |actions|
    ensures Enabled(states[i], actions[i]) && states[i + 1] == Next(states[i], actions[i])
  {
  }

  // ----- where the jobs are -----

  function InHand(p: Phase): seq<Job> {
    match p
    case Fetched(job) => [job]
    case Ran(job) => [job]
    case _ => []
  }

  function Times(q: seq<Job>, job: Job): nat {
    multiset(q)[job]
  }

  /** How often a worker is responsible for a job: queued, in its hands, or waiting to be reported. */
  function Held(x: Worker, job: Job): nat {
    Times(x.requests, job) + Times(InHand(x.phase), job) + Times(x.responses, job)
  }

  /** How often the worker holds the job with its task already run. */
  function HeldExecuted(x: Worker, job: Job): nat {
    (if x.phase == Ran(job) then 1 else 0) + Times(x.responses, job)
  }

  function AllHeld(ws: seq<Worker>, job: Job): nat {
    if ws == [] then 0 else AllHeld(ws[..|ws| - 1], job) + Held(ws[|ws| - 1], job)
  }

  function AllExecuted(ws: seq<Worker>, job: Job): nat {
    if ws == [] then 0 else AllExecuted(ws[..|ws| - 1], job) + HeldExecuted(ws[|ws| - 1], job)
  }

  function TotalLoad(ws: seq<Worker>): int {
    if ws == [] then 0 else TotalLoad(ws[..|ws| - 1]) + ws[|ws| - 1].load
  }

  lemma {:induction false} UpdateLoad(ws: seq<Worker>, w: nat, x: Worker)
    requires w < |ws|
    ensures TotalLoad(ws[w := x]) + ws[w].load == TotalLoad(ws) + x.load
  {
    var n := |ws| - 1;
    if w == n {
      assert ws[w := x][..n] == ws[..n];
    } else {
      UpdateLoad(ws[..n], w, x);
      assert ws[w := x][..n] == ws[..n][w := x];
    }
  }

  lemma UpdateFront(ws: seq<Worker>, w: nat, x: Worker)
    requires w < |ws|
    ensures var n := |ws| - 1;
      ws[w := x][..n] == if w == n then ws[..n] else ws[..n][w := x]
  {
  }

  lemma {:induction false} UpdateHeld(ws: seq<Worker>, w: nat, x: Worker, job: Job)
    requires w < |ws|
    ensures AllHeld(ws[w := x], job) + Held(ws[w], job) == AllHeld(ws, job) + Held(x, job)
  {
    UpdateFront(ws, w, x);
    if w < |ws| - 1 { UpdateHeld(ws[..|ws| - 1], w, x, job); }
  }

  lemma {:induction false} UpdateExecuted(ws: seq<Worker>, w: nat, x: Worker, job: Job)
    requires w < |ws|
    ensures AllExecuted(ws[w := x], job) + HeldExecuted(ws[w], job) == AllExecuted(ws, job) + HeldExecuted(x, job)
  {
    UpdateFront(ws, w, x);
    if w < |ws| - 1 { UpdateExecuted(ws[..|ws| - 1], w, x, job); }
  }

  lemma {:induction false} EmptySums(ws: seq<Worker>, job: Job)
    requires forall w | 0 <= w < |ws| :: ws[w] == Worker([], Idle, [], 0)
    ensures AllHeld(ws, job) == 0 && AllExecuted(ws, job) == 0 && TotalLoad(ws) == 0
  {
    if ws != [] { EmptySums(ws[..|ws| - 1], job); }
  }

  function LoadOf(x: Worker): nat {
    |x.requests| + |InHand(x.phase)| + |x.responses|
  }

  /** Each worker's `load` is the number of jobs it is responsible for, and
      `num_running_async_jobs` is the sum of the loads. */
  ghost predicate Loads(s: State) {
    && s.queueSize > 0 && |s.workers| > 0
    && (forall w | 0 <= w < |s.workers| :: s.workers[w].load == LoadOf(s.workers[w]))
    && s.numRunning == TotalLoad(s.workers)
  }

  /** A job, if accepted, is in exactly one place, and has run exactly if it is past that point. */
  ghost predicate Tracked(s: State, job: Job) {
    && Times(s.accepted, job) == AllHeld(s.workers, job) + Times(s.done, job)
    && Times(s.executed, job) == AllExecuted(s.workers, job) + Times(s.done, job)
    && Times(s.accepted, job) <= 1
  }

  lemma Appended(q: seq<Job>, x: Job, job: Job)
    ensures Times(q + [x], job) == Times(q, job) + (if x == job then 1 else 0)
  {
  }

  lemma Dropped(q: seq<Job>, job: Job)
    requires q != []
    ensures Times(q, job) == Times(q[1..], job) + (if q[0] == job then 1 else 0)
  {
    assert q == [q[0]] + q[1..];
  }

  lemma DrainKeepsTracked(s: State, w: nat, job: Job)
    requires Tracked(s, job) && w < |s.workers| && s.workers[w].responses != []
    ensures Tracked(Drained(s, w), job)
  {
    var x := s.workers[w];
    UpdateHeld(s.workers, w, Drained(s, w).workers[w], job);
    UpdateExecuted(s.workers, w, Drained(s, w).workers[w], job);
    Dropped(x.responses, job);
    Appended(s.done, x.responses[0], job);
  }

  lemma SubmitKeepsTracked(s: State, w: nat, added: Job, job: Job)
    requires Tracked(s, job) && Enabled(s, Submit(w, added))
    ensures Tracked(Next(s, Submit(w, added)), job)
  {
    var s' := Next(s, Submit(w, added));
    UpdateHeld(s.workers, w, s'.workers[w], job);
    UpdateExecuted(s.workers, w, s'.workers[w], job);
    Appended(s.workers[w].requests, added, job);
    Appended(s.accepted, added, job);
  }

  lemma FetchKeepsJobs(x: Worker, job: Job)
    requires x.phase.Idle? && x.requests != []
    ensures var x' := x.(requests := x.requests[1..], phase := Fetched(x.requests[0]));
      Held(x', job) == Held(x, job) && HeldExecuted(x', job) == HeldExecuted(x, job)
  {
    Dropped(x.requests, job);
  }

  lemma RespondKeepsJobs(x: Worker, job: Job)
    requires x.phase.Ran?
    ensures var x' := x.(phase := Notify, responses := x.responses + [x.phase.job]);
      Held(x', job) == Held(x, job) && HeldExecuted(x', job) == HeldExecuted(x, job)
  {
    Appended(x.responses, x.phase.job, job);
  }

  /** What a worker step does to the worker's jobs: nothing, except that running one is recorded. */
  lemma WorkerKeepsJobs(s: State, a: Action, job: Job)
    requires ByWorker(a) && Enabled(s, a)
    ensures var x, x' := s.workers[a.w], Next(s, a).workers[a.w];
      && Held(x', job) == Held(x, job)
      && HeldExecuted(x', job) == HeldExecuted(x, job) + (if a.Run? && x.phase.job == job then 1 else 0)
  {
    var x, x' := s.workers[a.w], Next(s, a).workers[a.w];
    if a.Fetch? {
      FetchKeepsJobs(x, job);
    } else if a.Respond? {
      RespondKeepsJobs(x, job);
    } else {
      assert x'.requests == x.requests && x'.responses == x.responses;
      assert InHand(x'.phase) == InHand(x.phase);
    }
  }

  lemma WorkerKeepsLoad(s: State, a: Action)
    requires ByWorker(a) && Enabled(s, a)
    ensures var x, x' := s.workers[a.w], Next(s, a).workers[a.w]; LoadOf(x') == LoadOf(x) && x'.load == x.load
  {
  }

  lemma WorkerKeepsTracked(s: State, a: Action, job: Job)
    requires Tracked(s, job) && ByWorker(a) && Enabled(s, a)
    ensures Tracked(Next(s, a), job)
  {
    var s' := Next(s, a);
    UpdateHeld(s.workers, a.w, s'.workers[a.w], job);
    UpdateExecuted(s.workers, a.w, s'.workers[a.w], job);
    WorkerKeepsJobs(s, a, job);
    if a.Run? { Appended(s.executed, s.workers[a.w].phase.job, job); }
  }

  lemma StepKeepsTracked(s: State, a: Action, job: Job)
    requires Tracked(s, job) && Enabled(s, a)
    ensures Tracked(Next(s, a), job)
  {
    if a.Submit? { SubmitKeepsTracked(s, a.w, a.job, job); }
    else if a.TakeEarly? { DrainKeepsTracked(s, a.w, job); }
    else if a.Take? { DrainKeepsTracked(s, s.main.i, job); }
    else if ByWorker(a) { WorkerKeepsTracked(s, a, job); }
  }

  /** Changing one worker and the count by the same amount. */
  lemma WorkerKeepsLoads(s: State, s': State, w: nat)
    requires Loads(s) && w < |s.workers| == |s'.workers| && s'.queueSize == s.queueSize
    requires s'.workers == s.workers[w := s'.workers[w]]
    requires s'.workers[w].load == LoadOf(s'.workers[w])
    requires s'.numRunning - s.numRunning == s'.workers[w].load - s.workers[w].load
    ensures Loads(s')
  {
    UpdateLoad(s.workers, w, s'.workers[w]);
  }

  lemma StepKeepsLoads(s: State, a: Action)
    requires Loads(s) && Enabled(s, a)
    ensures Loads(Next(s, a))
  {
    if a.Submit? || a.TakeEarly? {
      WorkerKeepsLoads(s, Next(s, a), a.w);
    } else if a.Take? {
      WorkerKeepsLoads(s, Next(s, a), s.main.i);
    } else if ByWorker(a) {
      WorkerKeepsLoad(s, a);
      WorkerKeepsLoads(s, Next(s, a), a.w);
    }
  }

  lemma {:induction false} RunIsConserved(actions: seq<Action>, states: seq<State>, n: nat, job: Job)
    requires IsRun(actions, states) && n <= |actions|
    ensures Loads(states[n]) && Tracked(states[n], job)
  {
    if n == 0 {
      EmptySums(states[0].workers, job);
    } else {
      RunIsConserved(actions, states, n - 1, job);
      RunStep(actions, states, n - 1);
      StepKeepsLoads(states[n - 1], actions[n - 1]);
      StepKeepsTracked(states[n - 1], actions[n - 1], job);
    }
  }

  /** Job conservation over every run: no job is lost or duplicated.  A job's signal is raised at most
      once, and only after its task, which runs at most once, has returned; and when no job is
      running, every job ever accepted has been executed and reported exactly once. */
  lemma JobsAreConserved(actions: seq<Action>, states: seq<State>, n: nat)
    requires IsRun(actions, states) && n <= |actions|
    ensures var s := states[n];
      && (forall w | 0 <= w < |s.workers| :: s.workers[w].load == LoadOf(s.workers[w]))
      && s.numRunning == TotalLoad(s.workers)
      && (forall job :: Times(s.done, job) <= Times(s.executed, job) <= Times(s.accepted, job) <= 1)
      && (s.numRunning == 0 ==> forall job :: Times(s.done, job) == Times(s.executed, job) == Times(s.accepted, job))
  {
    var s := states[n];
    RunIsConserved(actions, states, n, 0);
    forall job
      ensures Times(s.done, job) <= Times(s.executed, job) <= Times(s.accepted, job) <= 1
      ensures s.numRunning == 0 ==> Times(s.done, job) == Times(s.executed, job) == Times(s.accepted, job)
    {
      RunIsConserved(actions, states, n, job);
      ExecutedIsHeld(s.workers, job);
    }
  }

  lemma {:induction false} ExecutedIsHeld(ws: seq<Worker>, job: Job)
    requires forall w | 0 <= w < |ws| :: ws[w].load == LoadOf(ws[w])
    ensures AllExecuted(ws, job) <= AllHeld(ws, job) <= TotalLoad(ws)
  {
    if ws != [] {
      ExecutedIsHeld(ws[..|ws| - 1], job);
      TimesIsPart(ws[|ws| - 1], job);
    }
  }

  lemma TimesIsPart(x: Worker, job: Job)
    ensures HeldExecuted(x, job) <= Held(x, job) <= LoadOf(x)
  {
    TimesAtMost(x.requests, job);
    TimesAtMost(InHand(x.phase), job);
    TimesAtMost(x.responses, job);
  }

  lemma {:induction false} TimesAtMost(q: seq<Job>, job: Job)
    ensures Times(q, job) <= |q|
  {
    if q != [] { Dropped(q, job); TimesAtMost(q[1..], job); }
  }

  // ----- the wake-up handshake -----

  /** The queue of `x` holds a response whose notification has been counted. */
  predicate CountedIn(x: Worker) {
    |x.responses| > if x.phase.Notify? then 1 else 0
  }

  /** The queue of `x` holds a response whose notification has been carried out completely. */
  predicate CompletedIn(x: Worker) {
    |x.responses| > if x.phase.Notify? || x.phase.Wake? then 1 else 0
  }

  /** Workers drained since `ack_counter` was last written. */
  function Swept(s: State): nat {
    match s.main
    case Update(i, true) => if i < |s.workers| then i else |s.workers|
    case Platform => |s.workers|
    case Load(_) => |s.workers|
    case Arm => |s.workers|
    case _ => 0
  }

  /** A notification absorbed into `ack_counter` is followed by a complete drain before the next wait:
      a counted response in a queue already drained means a notification not yet absorbed. */
  ghost predicate Handshake(s: State) {
    && s.counter == s.notified % U32 && s.ack == s.absorbed % U32
    && s.absorbed <= s.notified
    && (s.main.Absorb? ==> s.main.loaded == s.main.seen % U32 && s.absorbed <= s.main.seen <= s.notified)
    && (forall w | 0 <= w < Swept(s) :: CountedIn(s.workers[w]) ==> s.notified > s.absorbed)
    && (s.main == Load(false) || s.main == Blocked(false) ==> s.numRunning <= 0)
  }

  lemma WorkerKeepsHandshake(s: State, a: Action)
    requires Handshake(s) && Enabled(s, a) && ByWorker(a)
    ensures Handshake(Next(s, a))
  {
  }

  lemma StepKeepsHandshake(s: State, a: Action)
    requires Handshake(s) && Enabled(s, a)
    ensures Handshake(Next(s, a))
  {
    if ByWorker(a) { WorkerKeepsHandshake(s, a); }
  }

  lemma {:induction false} RunKeepsHandshake(actions: seq<Action>, states: seq<State>, n: nat)
    requires IsRun(actions, states) && n <= |actions|
    ensures Handshake(states[n])
  {
    if n > 0 {
      RunKeepsHandshake(actions, states, n - 1);
      RunStep(actions, states, n - 1);
      StepKeepsHandshake(states[n - 1], actions[n - 1]);
    }
  }

  /** The event loop has missed a finished job: its response is queued and its worker is past notifying. */
  ghost predicate Misses(s: State) {
    exists w :: 0 <= w < |s.workers| && CompletedIn(s.workers[w])
  }

  /** The notifications that `ack_counter` does not account for are none, or not a multiple of 2^32. */
  predicate Unwrapped(s: State) {
    s.notified == s.absorbed || (s.notified - s.absorbed) % U32 != 0
  }

  lemma SameRemainder(m: nat, n: nat)
    requires m <= n
    ensures m % U32 == n % U32 <==> (n - m) % U32 == 0
  {
  }

  /** The kernel's comparison lets the event loop go to sleep over a finished job exactly when a
      positive multiple of 2^32 notifications has arrived since `ack_counter` was written. */
  lemma SleepsOverJobIff(s: State)
    requires Handshake(s) && s.main.Arm?
    ensures Next(s, ArmFutex).main == Blocked(true) && Misses(s) <==> !Unwrapped(s) && Misses(s)
  {
    SameRemainder(s.absorbed, s.notified);
    if Misses(s) {
      var w :| 0 <= w < |s.workers| && CompletedIn(s.workers[w]);
      assert CountedIn(s.workers[w]);
    }
  }

  /** When the loop is about to wait, it goes on to the futex, and the futex puts it to sleep, exactly if the
      number of notifications not accounted for is none or a multiple of 2^32. */
  lemma SleepsUnlessNotified(s: State)
    requires Handshake(s)
    ensures s.main.Load? && s.main.notifiable ==>
      (Next(s, LoadCounter).main.Arm? <==> (s.notified - s.absorbed) % U32 == 0)
    ensures s.main.Load? && !Next(s, LoadCounter).main.Absorb? && !s.main.notifiable ==>
      Next(s, LoadCounter).main == Blocked(false)
    ensures s.main.Arm? ==>
      Next(s, ArmFutex).main == if (s.notified - s.absorbed) % U32 == 0 then Blocked(true) else Woken
  {
    SameRemainder(s.absorbed, s.notified);
  }

  /** The wait of state `n` was entered by step `i`, and has not ended since. */
  ghost predicate WaitsSince(actions: seq<Action>, states: seq<State>, i: nat, n: nat) {
    && i < n < |states| && i < |actions| && actions[i].ArmFutex?
    && forall j | i < j <= n :: states[j].main == Blocked(true)
  }

  lemma {:induction false} EveryWaitWasEntered(actions: seq<Action>, states: seq<State>, n: nat) returns (i: nat)
    requires IsRun(actions, states) && n <= |actions| && states[n].main == Blocked(true)
    ensures WaitsSince(actions, states, i, n)
  {
    RunStep(actions, states, n - 1);
    if actions[n - 1].ArmFutex? {
      i := n - 1;
    } else {
      i := EveryWaitWasEntered(actions, states, n - 1);
    }
  }

  /** While the loop stays blocked, no worker gets past its notification. */
  lemma BlockedKeepsMisses(s: State, a: Action)
    requires Enabled(s, a) && s.main == Blocked(true) == Next(s, a).main
    ensures ByWorker(a) && Next(s, a).numRunning == s.numRunning
    ensures Misses(Next(s, a)) <==> Misses(s)
  {
    var t := Next(s, a);
    forall w | 0 <= w < |s.workers| ensures CompletedIn(t.workers[w]) <==> CompletedIn(s.workers[w]) {}
  }

  /** In every run: a blocked event loop misses a finished job exactly if, when the wait was entered, a
      positive multiple of 2^32 notifications was unaccounted for and the job was missed already. */
  lemma {:induction false} BlockedMissesIff(actions: seq<Action>, states: seq<State>, i: nat, n: nat)
    requires IsRun(actions, states) && WaitsSince(actions, states, i, n)
    ensures Misses(states[n]) <==> !Unwrapped(states[i]) && Misses(states[i])
    decreases n - i
  {
    RunStep(actions, states, n - 1);
    if n == i + 1 {
      RunKeepsHandshake(actions, states, i);
      SleepsOverJobIff(states[i]);
      assert states[n].workers == states[i].workers;
      assert states[n].main == Blocked(true);
    } else {
      BlockedKeepsMisses(states[n - 1], actions[n - 1]);
      BlockedMissesIff(actions, states, i, n - 1);
    }
  }

  lemma {:induction false} LoadIsPart(ws: seq<Worker>, w: nat)
    requires w < |ws| && (forall i | 0 <= i < |ws| :: ws[i].load == LoadOf(ws[i]))
    ensures TotalLoad(ws) >= ws[w].load
  {
    if w < |ws| - 1 { LoadIsPart(ws[..|ws| - 1], w); }
    else { ExecutedIsHeld(ws[..|ws| - 1], 0); }
  }

  /** A wait without the futex leaves no response behind. Any other was entered at some step `i`, and
      unless the counter had wrapped there, every response queued while the loop is blocked belongs to a
      worker that has not carried out its notification yet, and is the only one in that queue. */
  lemma BlockedMissesNothing(actions: seq<Action>, states: seq<State>, n: nat) returns (i: nat)
    requires IsRun(actions, states) && n <= |actions| && states[n].main.Blocked?
    ensures states[n].main == Blocked(false) ==>
      states[n].numRunning == 0 && forall w | 0 <= w < |states[n].workers| :: states[n].workers[w].responses == []
    ensures states[n].main == Blocked(true) ==>
      && WaitsSince(actions, states, i, n)
      && (Unwrapped(states[i]) ==>
            forall w | 0 <= w < |states[n].workers| && states[n].workers[w].responses != [] ::
              && |states[n].workers[w].responses| == 1
              && (states[n].workers[w].phase.Notify? || states[n].workers[w].phase.Wake?))
  {
    RunKeepsHandshake(actions, states, n);
    RunIsConserved(actions, states, n, 0);
    var s := states[n];
    i := 0;
    if s.main == Blocked(false) {
      ExecutedIsHeld(s.workers, 0);
      forall w | 0 <= w < |s.workers| ensures s.workers[w].responses == [] {
        LoadIsPart(s.workers, w);
      }
    } else {
      i := EveryWaitWasEntered(actions, states, n);
      BlockedMissesIff(actions, states, i, n);
      if Unwrapped(states[i]) {
        forall w | 0 <= w < |s.workers| ensures !CompletedIn(s.workers[w]) {}
      }
    }
  }

  /** A bound on the steps a worker can take without a new request. */
  function WorkOf(x: Worker): nat {
    5 * |x.requests| + match x.phase
      case Idle => 0
      case Fetched(_) => 4
      case Ran(_) => 3
      case Notify => 2
      case Wake => 1
  }

  function WorkLeft(ws: seq<Worker>): nat {
    if ws == [] then 0 else WorkLeft(ws[..|ws| - 1]) + WorkOf(ws[|ws| - 1])
  }

  lemma {:induction false} UpdateWork(ws: seq<Worker>, w: nat, x: Worker)
    requires w < |ws|
    ensures WorkLeft(ws[w := x]) + WorkOf(ws[w]) == WorkLeft(ws) + WorkOf(x)
  {
    var n := |ws| - 1;
    if w == n {
      assert ws[w := x][..n] == ws[..n];
    } else {
      UpdateWork(ws[..n], w, x);
      assert ws[w := x][..n] == ws[..n][w := x];
    }
  }

  lemma WorkerStepUsesWork(s: State, a: Action)
    requires ByWorker(a) && Enabled(s, a)
    ensures WorkLeft(Next(s, a).workers) < WorkLeft(s.workers)
  {
    UpdateWork(s.workers, a.w, Next(s, a).workers[a.w]);
  }

  /** The event loop is blocked from state `n` to state `m`. */
  ghost predicate BlockedFor(actions: seq<Action>, states: seq<State>, n: nat, m: nat) {
    n <= m < |states| && forall j | n <= j <= m :: states[j].main == Blocked(true)
  }

  /** In any run, each step of a wait uses up some of a finite amount of work, and changes neither
      the number of jobs nor what is missed. */
  lemma {:induction false} WaitIsBounded(actions: seq<Action>, states: seq<State>, n: nat, m: nat)
    requires IsRun(actions, states) && BlockedFor(actions, states, n, m)
    ensures m - n + WorkLeft(states[m].workers) <= WorkLeft(states[n].workers)
    ensures states[m].numRunning == states[n].numRunning && (Misses(states[m]) <==> Misses(states[n]))
    decreases m - n
  {
    if n < m {
      RunStep(actions, states, m - 1);
      BlockedKeepsMisses(states[m - 1], actions[m - 1]);
      WorkerStepUsesWork(states[m - 1], actions[m - 1]);
      WaitIsBounded(actions, states, n, m - 1);
    }
  }

  /** With jobs outstanding and none missed, a blocked event loop can be woken: some worker can step. */
  lemma BlockedCanGoOn(s: State) returns (a: Action)
    requires Loads(s) && s.main == Blocked(true) && s.numRunning > 0 && !Misses(s)
    ensures ByWorker(a) && Enabled(s, a)
  {
    var w := SomeLoad(s.workers);
    assert !CompletedIn(s.workers[w]);
    match s.workers[w].phase
    case Idle => a := Fetch(w);
    case Fetched(_) => a := Run(w);
    case Ran(_) => a := Respond(w);
    case Notify => a := Increment(w);
    case Wake => a := FutexWake(w);
  }

  /** The wait always ends, without fairness and without help from the main thread. It was entered at
      some step `i`; unless the counter had wrapped there, and while jobs are outstanding, a run that
      has gone on for more than `WorkLeft` steps from a blocked state has left the wait within that many
      and one, and a run in which no worker can step any more has left it too. */
  lemma BlockedIsWoken(actions: seq<Action>, states: seq<State>, n: nat) returns (i: nat)
    requires IsRun(actions, states) && n <= |actions| && states[n].main == Blocked(true) && states[n].numRunning > 0
    ensures WaitsSince(actions, states, i, n)
    ensures var bound := WorkLeft(states[n].workers) + 1;
      || !Unwrapped(states[i])
      || (exists j :: n < j < |states| && j <= n + bound && states[j].main != Blocked(true))
      || (|actions| < n + bound && exists a :: ByWorker(a) && Enabled(states[|actions|], a))
  {
    i := EveryWaitWasEntered(actions, states, n);
    var bound, last := WorkLeft(states[n].workers) + 1, |actions|;
    if Unwrapped(states[i]) && !exists j :: n < j < |states| && j <= n + bound && states[j].main != Blocked(true) {
      var m := if last <= n + bound then last else n + bound;
      assert BlockedFor(actions, states, n, m);
      WaitIsBounded(actions, states, n, m);
      assert m == last < n + bound;
      BlockedMissesIff(actions, states, i, n);
      RunIsConserved(actions, states, m, 0);
      var a := BlockedCanGoOn(states[m]);
    }
  }

  lemma {:induction false} SomeLoad(ws: seq<Worker>) returns (w: nat)
    requires TotalLoad(ws) > 0
    ensures w < |ws| && ws[w].load > 0
  {
    if ws[|ws| - 1].load > 0 { w := |ws| - 1; } else { w := SomeLoad(ws[..|ws| - 1]); }
  }

  /** A run that ends in `s`. */
  ghost predicate Reachable(s: State) {
    exists actions, states :: IsRun(actions, states) && states[|actions|] == s
  }

  lemma Reach(s: State, a: Action)
    requires Reachable(s) && Enabled(s, a)
    ensures Reachable(Next(s, a))
  {
    var actions, states :| IsRun(actions, states) && states[|actions|] == s;
    var actions', states' := actions + [a], states + [Next(s, a)];
    assert IsRun(actions', states') && states'[|actions'|] == Next(s, a);
  }

  // ----- when a submit has to wait -----

  ghost predicate Bounded(s: State) {
    forall w | 0 <= w < |s.workers| ::
      |s.workers[w].requests| <= s.queueSize && |s.workers[w].responses| <= 2 * s.queueSize
  }

  lemma StepKeepsBounded(s: State, a: Action)
    requires Bounded(s) && Enabled(s, a)
    ensures Bounded(Next(s, a))
  {
  }

  lemma {:induction false} RunKeepsBounded(actions: seq<Action>, states: seq<State>, n: nat)
    requires IsRun(actions, states) && n <= |actions|
    ensures Bounded(states[n])
  {
    if n > 0 {
      RunKeepsBounded(actions, states, n - 1);
      RunStep(actions, states, n - 1);
      StepKeepsBounded(states[n - 1], actions[n - 1]);
    }
  }

  /** `bio_run_async` can hand over no job at all: it yields and tries again. */
  ghost predicate Waits(s: State) {
    s.main.Coroutines? && forall v, job :: !Enabled(s, Submit(v, job))
  }

  ghost predicate HasRoom(s: State, v: nat) {
    v < |s.workers| && |s.workers[v].requests| < s.queueSize
  }

  lemma {:induction false} FreshJob(jobs: seq<Job>) returns (job: Job)
    ensures job !in jobs && forall j | j in jobs :: j < job
  {
    if jobs == [] {
      job := 0;
    } else {
      var n := |jobs| - 1;
      var rest := FreshJob(jobs[..n]);
      job := if rest > jobs[n] then rest else jobs[n] + 1;
      assert jobs == jobs[..n] + [jobs[n]];
    }
  }

  /** Once the responses are drained, a submit has to wait exactly when the queue of the worker that the
      selection loop then chooses, the first least loaded one, is full. */
  lemma WaitsIff(s: State, w: nat)
    requires Bounded(s) && s.main.Coroutines? && LeastLoaded(s.workers, w)
    ensures Waits(s) <==> |s.workers[w].requests| == s.queueSize
  {
    var job := FreshJob(s.accepted);
    if |s.workers[w].requests| < s.queueSize { assert Enabled(s, Submit(w, job)); }
    forall v, j | Enabled(s, Submit(v, j)) ensures v == w {}
  }

  /** A worker without its responses. */
  function WithoutResponses(x: Worker): Worker {
    x.(responses := [], load := x.load - |x.responses|)
  }

  /** State `d` is `s` after `bio_run_async` has drained all responses, before it chooses a worker. */
  ghost predicate DrainedFrom(s: State, d: State) {
    && |d.workers| == |s.workers|
    && (forall v | 0 <= v < |s.workers| :: d.workers[v] == WithoutResponses(s.workers[v]))
    && d.main == s.main && d.queueSize == s.queueSize && d.accepted == s.accepted
  }

  /** The drains of the call lead there, if the workers stand still meanwhile. */
  lemma {:induction false} DrainPass(s: State, v: nat) returns (d: State)
    requires Reachable(s) && s.main.Coroutines? && v <= |s.workers|
    requires forall u | 0 <= u < v :: s.workers[u].responses == []
    ensures Reachable(d) && DrainedFrom(s, d)
    decreases |s.workers| - v, if v < |s.workers| then |s.workers[v].responses| else 0
  {
    if v == |s.workers| {
      d := s;
    } else if s.workers[v].responses == [] {
      d := DrainPass(s, v + 1);
    } else {
      Reach(s, TakeEarly(v));
      d := DrainPass(Next(s, TakeEarly(v)), v);
    }
  }

  /** What a worker still has to do: jobs queued or in hand. */
  function Undone(x: Worker): nat {
    |x.requests| + |InHand(x.phase)|
  }

  /** The first worker with the least left to do. */
  ghost predicate LeastUndone(ws: seq<Worker>, w: nat) {
    && w < |ws|
    && forall j | 0 <= j < |ws| ::
         if j < w then Undone(ws[j]) > Undone(ws[w]) else Undone(ws[j]) >= Undone(ws[w])
  }

  lemma ChosenIsLeastUndone(s: State, d: State, w: nat)
    requires Loads(s) && DrainedFrom(s, d) && LeastUndone(s.workers, w)
    ensures LeastLoaded(d.workers, w)
  {
    forall v | 0 <= v < |s.workers| ensures d.workers[v].load == Undone(s.workers[v]) {}
  }

  /** `bio_run_async` is documented to busy-wait when all queues are full. In every reachable state a call
      does; and it does exactly if the queue of the first worker with the least left to do is full, its
      unread responses not counted, since the call drains them first. If it waits and another worker
      has room, that one lacks a single job and has one in hand, while the chosen one has none in hand. */
  lemma WaitsAtCallIff(actions: seq<Action>, states: seq<State>, n: nat, w: nat, d: State)
    requires IsRun(actions, states) && n <= |actions| && states[n].main.Coroutines?
    requires LeastUndone(states[n].workers, w) && DrainedFrom(states[n], d)
    ensures var s := states[n];
      && (Waits(d) <==> |s.workers[w].requests| == s.queueSize)
      && ((forall v: nat | v < |s.workers| :: !HasRoom(s, v)) ==> Waits(d))
      && (forall v: nat | Waits(d) && HasRoom(s, v) ::
            && |s.workers[v].requests| == s.queueSize - 1 && InHand(s.workers[v].phase) != []
            && InHand(s.workers[w].phase) == [])
  {
    var s := states[n];
    RunKeepsBounded(actions, states, n);
    RunIsConserved(actions, states, n, 0);
    ChosenIsLeastUndone(s, d, w);
    WaitsIff(d, w);
    assert d.workers[w].requests == s.workers[w].requests;
    if !HasRoom(s, w) { assert |s.workers[w].requests| == s.queueSize; }
  }

  // ----- the order of one worker's jobs -----

  /** Job `a` was accepted before job `b`. */
  ghost predicate Earlier(accepted: seq<Job>, a: Job, b: Job) {
    exists m, n :: 0 <= m < n < |accepted| && accepted[m] == a && accepted[n] == b
  }

  ghost predicate InOrder(accepted: seq<Job>, q: seq<Job>) {
    forall i, j | 0 <= i < j < |q| :: Earlier(accepted, q[i], q[j])
  }

  /** What a worker has been given and the loop has not been told of: first what is reported, then what is in its
      hands, then what is queued. */
  function Given(x: Worker): seq<Job> {
    x.responses + InHand(x.phase) + x.requests
  }

  lemma EarlierStays(accepted: seq<Job>, a: Job, b: Job, job: Job)
    requires Earlier(accepted, a, b)
    ensures Earlier(accepted + [job], a, b)
  {
    var m, n :| 0 <= m < n < |accepted| && accepted[m] == a && accepted[n] == b;
    assert (accepted + [job])[m] == a && (accepted + [job])[n] == b;
  }

  lemma EarlierThanNew(accepted: seq<Job>, a: Job, job: Job)
    requires a in accepted
    ensures Earlier(accepted + [job], a, job)
  {
    var m :| 0 <= m < |accepted| && accepted[m] == a;
    assert (accepted + [job])[m] == a && (accepted + [job])[|accepted|] == job;
  }

  /** Jobs given to one worker are in the order of their acceptance. */
  ghost predicate Orderly(s: State, w: nat)
    requires w < |s.workers|
  {
    var q := Given(s.workers[w]);
    InOrder(s.accepted, q) && forall job | job in q :: job in s.accepted
  }

  lemma NewComesLast(accepted: seq<Job>, q: seq<Job>, job: Job)
    requires InOrder(accepted, q) && forall j | j in q :: j in accepted
    ensures InOrder(accepted + [job], q + [job])
  {
    var r := q + [job];
    forall i, j | 0 <= i < j < |r| ensures Earlier(accepted + [job], r[i], r[j]) {
      assert r[i] == q[i] && q[i] in q;
      if j < |q| { EarlierStays(accepted, q[i], q[j], job); } else { EarlierThanNew(accepted, q[i], job); }
    }
  }

  lemma OrderStays(accepted: seq<Job>, q: seq<Job>, job: Job)
    requires InOrder(accepted, q)
    ensures InOrder(accepted + [job], q)
  {
    forall i, j | 0 <= i < j < |q| ensures Earlier(accepted + [job], q[i], q[j]) {
      EarlierStays(accepted, q[i], q[j], job);
    }
  }

  /** What a step makes of a worker's jobs: a new one at the end, the first one done, or nothing. */
  ghost predicate Moves(s: State, a: Action, t: State, q: seq<Job>, q': seq<Job>, w: nat) {
    if a.Submit? then t.accepted == s.accepted + [a.job] && q' == if a.w == w then q + [a.job] else q
    else
      && t.accepted == s.accepted
      && (q' == q || (q != [] && q' == q[1..] && t.done == s.done + [q[0]] && (a.Take? || a.TakeEarly?)))
  }

  lemma WorkerMoves(s: State, a: Action, w: nat)
    requires Enabled(s, a) && w < |s.workers| && ByWorker(a)
    ensures |Next(s, a).workers| == |s.workers| && Given(Next(s, a).workers[w]) == Given(s.workers[w])
    ensures Next(s, a).accepted == s.accepted
  {
    var x := s.workers[w];
    if a.Fetch? && a.w == w {
      assert [x.requests[0]] + x.requests[1..] == x.requests;
      assert x.responses + [] + x.requests == x.responses + [x.requests[0]] + x.requests[1..];
    } else if a.Respond? && a.w == w {
      assert x.responses + [x.phase.job] + x.requests == x.responses + [x.phase.job] + [] + x.requests;
    }
  }

  lemma DrainMoves(s: State, v: nat, w: nat)
    requires v < |s.workers| && w < |s.workers| && s.workers[v].responses != []
    ensures var t, q := Drained(s, v), Given(s.workers[w]);
      && |t.workers| == |s.workers| && t.accepted == s.accepted
      && if v == w then q != [] && Given(t.workers[w]) == q[1..] && t.done == s.done + [q[0]]
         else Given(t.workers[w]) == q
  {
    var x := s.workers[w];
    if v == w { assert x.responses[1..] + InHand(x.phase) + x.requests == Given(x)[1..]; }
  }

  lemma GivenMoves(s: State, a: Action, w: nat)
    requires Enabled(s, a) && w < |s.workers|
    ensures |Next(s, a).workers| == |s.workers|
    ensures Moves(s, a, Next(s, a), Given(s.workers[w]), Given(Next(s, a).workers[w]), w)
  {
    var x := s.workers[w];
    if ByWorker(a) {
      WorkerMoves(s, a, w);
    } else if a.Take? {
      DrainMoves(s, s.main.i, w);
    } else if a.TakeEarly? {
      DrainMoves(s, a.w, w);
    } else if a.Submit? && a.w == w {
      assert x.responses + InHand(x.phase) + (x.requests + [a.job]) == Given(x) + [a.job];
    }
  }

  lemma StepKeepsOrderly(s: State, a: Action, w: nat)
    requires Enabled(s, a) && w < |s.workers| && Orderly(s, w)
    ensures w < |Next(s, a).workers| && Orderly(Next(s, a), w)
  {
    GivenMoves(s, a, w);
    var q := Given(s.workers[w]);
    if a.Submit? {
      if a.w == w { NewComesLast(s.accepted, q, a.job); } else { OrderStays(s.accepted, q, a.job); }
    }
  }

  /** In every run each worker's jobs are executed and reported in the order in which they were accepted. */
  lemma {:induction false} JobsAreInOrder(actions: seq<Action>, states: seq<State>, n: nat, w: nat)
    requires IsRun(actions, states) && n <= |actions| && w < |states[0].workers|
    ensures w < |states[n].workers| && Orderly(states[n], w)
  {
    if n > 0 {
      JobsAreInOrder(actions, states, n - 1, w);
      RunStep(actions, states, n - 1);
      StepKeepsOrderly(states[n - 1], actions[n - 1], w);
    }
  }

  // ----- what happens at the wrap -----

  function FirstJobs(n: nat): (q: seq<Job>)
    ensures |q| == n && forall i | 0 <= i < n :: q[i] == i
  {
    seq(n, i requires 0 <= i < n => i)
  }

  /** A pool of one worker after `n` jobs, each submitted, executed, notified and drained by
      `bio_run_async` without the event loop ever waiting. */
  function Busy(n: nat): State {
    State(1, [Worker([], Idle, [], 0)], 0, n % U32, 0, Coroutines,
          FirstJobs(n), FirstJobs(n), FirstJobs(n), n, 0)
  }

  /** The same pool when one more job has been submitted and executed. */
  function BusyWith(n: nat, main: MainPc, x: Worker, executed: nat, notified: nat): State {
    State(1, [x], 1, notified % U32, 0, main, FirstJobs(n + 1), FirstJobs(executed), FirstJobs(n), notified, 0)
  }

  lemma ReachableIsBounded(s: State)
    requires Reachable(s)
    ensures Bounded(s)
  {
    var actions, states :| IsRun(actions, states) && states[|actions|] == s;
    RunKeepsBounded(actions, states, |actions|);
  }

  lemma OneMoreJob(n: nat)
    ensures FirstJobs(n) + [n] == FirstJobs(n + 1) && n !in FirstJobs(n)
  {
  }

  lemma OneWorker(x: Worker, y: Worker, job: Job)
    ensures [x][0 := y] == [y] && [job][1..] == [] && [] + [job] == [job]
  {
  }

  lemma SubmitTo(n: nat)
    requires Reachable(Busy(n))
    ensures Reachable(BusyWith(n, Coroutines, Worker([n], Idle, [], 1), n, n))
  {
    OneMoreJob(n);
    OneWorker(Worker([], Idle, [], 0), Worker([n], Idle, [], 1), n);
    assert Next(Busy(n), Submit(0, n)) == BusyWith(n, Coroutines, Worker([n], Idle, [], 1), n, n);
    Reach(Busy(n), Submit(0, n));
  }

  /** One step of the only worker. */
  lemma WorkerReach(s: State, a: Action, s': State)
    requires Reachable(s) && ByWorker(a) && a.w == 0 && Enabled(s, a) && |s.workers| == 1
    requires !s.main.Blocked? && s' == Next(s, a).(workers := [Next(s, a).workers[0]])
    ensures Reachable(s')
  {
    OneWorker(s.workers[0], Next(s, a).workers[0], 0);
    Reach(s, a);
    assert Next(s, a).workers == [Next(s, a).workers[0]];
  }

  /** The stages of executing job `n`. */
  function Stage(n: nat, main: MainPc, k: nat): State
    requires k <= 5
  {
    match k
    case 0 => BusyWith(n, main, Worker([n], Idle, [], 1), n, n)
    case 1 => BusyWith(n, main, Worker([], Fetched(n), [], 1), n, n)
    case 2 => BusyWith(n, main, Worker([], Ran(n), [], 1), n + 1, n)
    case 3 => BusyWith(n, main, Worker([], Notify, [n], 1), n + 1, n)
    case 4 => BusyWith(n, main, Worker([], Wake, [n], 1), n + 1, n + 1)
    case 5 => BusyWith(n, main, Worker([], Idle, [n], 1), n + 1, n + 1)
  }

  function StageAction(k: nat): Action
    requires k < 5
  {
    match k
    case 0 => Fetch(0)
    case 1 => Run(0)
    case 2 => Respond(0)
    case 3 => Increment(0)
    case 4 => FutexWake(0)
  }

  ghost predicate Leads(n: nat, main: MainPc, k: nat)
    requires k < 5 && !main.Blocked?
  {
    var s, a := Stage(n, main, k), StageAction(k);
    Enabled(s, a) && Next(s, a).(workers := [Next(s, a).workers[0]]) == Stage(n, main, k + 1)
  }

  lemma FetchLeads(n: nat, main: MainPc)
    requires !main.Blocked?
    ensures Leads(n, main, 0)
  {
    OneWorker(IDLE, IDLE, n);
  }

  lemma RunLeads(n: nat, main: MainPc)
    requires !main.Blocked?
    ensures Leads(n, main, 1)
  {
    OneMoreJob(n);
  }

  lemma RespondLeads(n: nat, main: MainPc)
    requires !main.Blocked?
    ensures Leads(n, main, 2)
  {
    OneWorker(IDLE, IDLE, n);
  }

  lemma IncrementLeads(n: nat, main: MainPc)
    requires !main.Blocked?
    ensures Leads(n, main, 3)
  {
  }

  lemma FutexWakeLeads(n: nat, main: MainPc)
    requires !main.Blocked?
    ensures Leads(n, main, 4)
  {
  }

  lemma StageNext(n: nat, main: MainPc, k: nat)
    requires k < 5 && !main.Blocked?
    ensures Leads(n, main, k)
  {
    match k
    case 0 => FetchLeads(n, main);
    case 1 => RunLeads(n, main);
    case 2 => RespondLeads(n, main);
    case 3 => IncrementLeads(n, main);
    case 4 => FutexWakeLeads(n, main);
  }

  lemma StageStep(n: nat, main: MainPc, k: nat)
    requires k < 5 && Reachable(Stage(n, main, k)) && !main.Blocked?
    ensures Reachable(Stage(n, main, k + 1))
  {
    StageNext(n, main, k);
    WorkerReach(Stage(n, main, k), StageAction(k), Stage(n, main, k + 1));
  }

  lemma Execute(n: nat, main: MainPc)
    requires Reachable(BusyWith(n, main, Worker([n], Idle, [], 1), n, n)) && !main.Blocked?
    ensures Reachable(BusyWith(n, main, Worker([], Idle, [n], 1), n + 1, n + 1))
  {
    assert Reachable(Stage(n, main, 0));
    StageStep(n, main, 0);
    StageStep(n, main, 1);
    StageStep(n, main, 2);
    StageStep(n, main, 3);
    StageStep(n, main, 4);
    assert Reachable(Stage(n, main, 5));
  }

  lemma {:induction false} BusyIsReachable(n: nat)
    ensures Reachable(Busy(n))
  {
    if n == 0 {
      var none: seq<Action> := [];
      assert IsRun(none, [Busy(0)]) && [Busy(0)][|none|] == Busy(0);
    } else {
      BusyIsReachable(n - 1);
      SubmitTo(n - 1);
      Execute(n - 1, Coroutines);
      OneMoreJob(n - 1);
      var s := BusyWith(n - 1, Coroutines, Worker([], Idle, [n - 1], 1), n, n);
      Reach(s, TakeEarly(0));
      OneWorker(s.workers[0], Worker([], Idle, [], 0), n - 1);
      assert Next(s, TakeEarly(0)) == Busy(n);
    }
  }

  /** Such a wrap is reachable: if 2^32 notifications arrive without the event loop ever
      waiting, the counter is back at `ack_counter`, and the loop goes to sleep over a response whose
      worker has long finished notifying. */
  lemma WrapLosesWakeUp()
    ensures exists s :: Reachable(s) && s.main == Blocked(true) && s.notified - s.absorbed == U32
                        && |s.workers| == 1 && s.workers[0].phase.Idle? && |s.workers[0].responses| == 1
  {
    var n := U32 - 1;
    BusyIsReachable(n);
    SubmitTo(n);
    var x := Worker([n], Idle, [], 1);
    Reach(BusyWith(n, Coroutines, x, n, n), EndRound);
    assert Next(BusyWith(n, Coroutines, x, n, n), EndRound) == BusyWith(n, Update(0, true), x, n, n);
    Reach(BusyWith(n, Update(0, true), x, n, n), NextWorker);
    assert Next(BusyWith(n, Update(0, true), x, n, n), NextWorker) == BusyWith(n, Platform, x, n, n);
    Execute(n, Platform);
    var x' := Worker([], Idle, [n], 1);
    var s := BusyWith(n, Platform, x', n + 1, n + 1);
    Reach(s, DoWait);
    assert Next(s, DoWait) == s.(main := Load(true));
    Reach(s.(main := Load(true)), LoadCounter);
    assert Next(s.(main := Load(true)), LoadCounter) == s.(main := Arm);
    Reach(s.(main := Arm), ArmFutex);
    assert Next(s.(main := Arm), ArmFutex) == s.(main := Blocked(true));
  }

  /** A pool of two workers with one request slot each. */
  function Two(x: Worker, y: Worker, jobs: nat): State {
    State(1, [x, y], jobs, 0, 0, Coroutines, FirstJobs(jobs), [], [], 0, 0)
  }

  lemma TwoReach(s: State, a: Action, x: Worker, y: Worker, jobs: nat)
    requires Reachable(s) && Enabled(s, a) && Next(s, a).workers == [x, y]
    requires Next(s, a) == Two(x, y, jobs).(workers := Next(s, a).workers)
    ensures Reachable(Two(x, y, jobs))
  {
    Reach(s, a);
  }

  const IDLE := Worker([], Idle, [], 0)

  /** A worker with only the given job, in its queue. */
  function Loaded(job: Job): Worker {
    Worker([job], Idle, [], 1)
  }

  lemma SubmitToFirst()
    ensures Reachable(Two(Loaded(0), IDLE, 1))
  {
    var none: seq<Action> := [];
    assert IsRun(none, [Two(IDLE, IDLE, 0)]) && [Two(IDLE, IDLE, 0)][|none|] == Two(IDLE, IDLE, 0);
    OneMoreJob(0);
    OneWorker(IDLE, IDLE, 0);
    TwoReach(Two(IDLE, IDLE, 0), Submit(0, 0), Loaded(0), IDLE, 1);
  }

  lemma SubmitToSecond()
    ensures Reachable(Two(Loaded(0), Loaded(1), 2))
  {
    SubmitToFirst();
    OneMoreJob(1);
    OneWorker(IDLE, IDLE, 1);
    TwoReach(Two(Loaded(0), IDLE, 1), Submit(1, 1), Loaded(0), Loaded(1), 2);
  }

  /** It happens: two workers with one queue slot each get a job, and only the second one has fetched
      its job. */
  lemma BusyWaitsWithRoomElsewhere()
    ensures exists s :: Reachable(s) && DrainedFrom(s, s) && Waits(s) && HasRoom(s, 1)
  {
    SubmitToSecond();
    OneWorker(IDLE, IDLE, 1);
    var busy := Worker([], Fetched(1), [], 1);
    TwoReach(Two(Loaded(0), Loaded(1), 2), Fetch(1), Loaded(0), busy, 2);
    var s := Two(Loaded(0), busy, 2);
    assert LeastLoaded(s.workers, 0) && HasRoom(s, 1);
    ReachableIsBounded(s);
    WaitsIff(s, 0);
  }

  // ----- choosing a worker -----

  const UINT_MAX: nat := 0xffff_ffff

  /** The selection loop of `bio_run_async`: the first worker of minimal load. */
  method ChooseWorker(loads: seq<nat>) returns (chosen: int)
    ensures chosen == -1 <==> forall j | 0 <= j < |loads| :: loads[j] >= UINT_MAX
    ensures chosen != -1 ==> 0 <= chosen < |loads| && forall j | 0 <= j < |loads| ::
              if j < chosen then loads[j] > loads[chosen] else loads[j] >= loads[chosen]
  {
    chosen := -1;
    var minLoad := UINT_MAX;
    for i := 0 to |loads|
      invariant -1 <= chosen < i
      invariant chosen == -1 ==> minLoad == UINT_MAX && forall j | 0 <= j < i :: loads[j] >= UINT_MAX
      invariant chosen != -1 ==> minLoad == loads[chosen] < UINT_MAX
      invariant chosen != -1 ==> forall j | 0 <= j < i :: if j < chosen then loads[j] > minLoad else loads[j] >= minLoad
    {
      if loads[i] < minLoad {
        minLoad := loads[i];
        chosen := i;
      }
    }
  }
}
