/** What the scheduler of src/scheduler.c does, as functions on its state: coroutines, signals,
    monitors and the two ready lists.  Handles are identifiers that are never reused, which is what
    module HandleTable establishes; 0 is the invalid handle. */
module Coroutines {
  import opened Wrappers

  type Id = nat
  const INVALID: Id := 0

  datatype Status = Ready | Running | Waiting

  /** `bio_coro_impl_t`: the intrusive list of pending signals is a set, since its order never
      matters; the monitor list keeps its order. */
  datatype Coro = Coro(
    status: Status, daemon: bool, epoch: int, blocking: int, signals: set<Id>, monitors: seq<Id>)

  /** `bio_signal_impl_t`; `epoch` is its `wait_counter`. */
  datatype Signal = Signal(owner: Id, epoch: int)

  /** `bio_monitor_impl_t`; `target` stands for the list the monitor is linked into. */
  datatype Monitor = Monitor(target: Id, signal: Id)

  /** What a suspended coroutine waits for: the live signals of its own that it named, whether all
      of them are needed, and how many times it named one of them again. */
  datatype Wait = Wait(named: set<Id>, all: bool, surplus: nat)

  datatype State = State(
    coros: map<Id, Coro>,
    signals: map<Id, Signal>,
    monitors: map<Id, Monitor>,
    nextId: Id,               // the next handle
    current: seq<Id>,         // current_ready_coros
    index: nat,               // how many of them have been resumed in this round
    next: seq<Id>,            // next_ready_coros
    running: Option<Id>,
    numCoros: int,
    numDaemons: int,
    terminating: bool,
    waits: map<Id, Wait>,     // history: the wait a suspended or just woken coroutine is in
    madeReady: seq<Id>,       // history: every push on a ready list, in order
    ran: seq<Id>              // history: every resumption, in order
  )

  const START := State(map[], map[], map[], 1, [], 0, [], None, 0, 0, false, map[], [], [])

  /** Ready coroutines that have not been resumed yet, in the order they will be. */
  function Queue(s: State): seq<Id> {
    (if s.index <= |s.current| then s.current[s.index..] else []) + s.next
  }

  function PushReady(s: State, c: Id): State {
    s.(next := s.next + [c], madeReady := s.madeReady + [c])
  }

  // ----- signals -----

  /** `bio_make_signal` by coroutine `c`. */
  function MakeSignal(s: State, c: Id): (State, Id)
    requires c in s.coros
  {
    var coro := s.coros[c];
    (s.(signals := s.signals[s.nextId := Signal(c, coro.epoch - 1)],
        coros := s.coros[c := coro.(signals := coro.signals + {s.nextId})],
        nextId := s.nextId + 1),
     s.nextId)
  }

  /** Whether raising a live signal counts against its owner's current wait. */
  predicate Counts(s: State, g: Id)
    requires g in s.signals && s.signals[g].owner in s.coros
  {
    var owner := s.coros[s.signals[g].owner];
    owner.status.Waiting? && s.signals[g].epoch == owner.epoch
  }

  /** `bio_raise_signal`; the second result says whether the owner was woken. */
  function RaiseSignal(s: State, g: Id): (State, bool) {
    if g in s.signals && s.signals[g].owner in s.coros then
      var c := s.signals[g].owner;
      var coro := s.coros[c].(signals := s.coros[c].signals - {g});
      var s' := s.(signals := s.signals - {g});
      if Counts(s, g) then
        if coro.blocking == 1 then
          (PushReady(s'.(coros := s.coros[c := coro.(blocking := 0, status := Ready)]), c), true)
        else (s'.(coros := s.coros[c := coro.(blocking := coro.blocking - 1)]), false)
      else (s'.(coros := s.coros[c := coro]), false)
    else (s, false)
  }

  // ----- waiting -----

  predicate Own(s: State, c: Id, g: Id) {
    g in s.signals && s.signals[g].owner == c
  }

  /** How many entries of the array are live signals of the caller (duplicates counted). */
  function CountOwn(s: State, c: Id, gs: seq<Id>): nat {
    if gs == [] then 0
    else CountOwn(s, c, gs[..|gs| - 1]) + (if Own(s, c, gs[|gs| - 1]) then 1 else 0)
  }

  function NamedOwn(s: State, c: Id, gs: seq<Id>): set<Id> {
    set g | g in gs && Own(s, c, g)
  }

  predicate SomeRaised(s: State, gs: seq<Id>) {
    exists g :: g in gs && g !in s.signals && g != INVALID
  }

  /** The named signals move to the caller's new epoch. */
  function Mark(s: State, c: Id, gs: seq<Id>, epoch: int): map<Id, Signal> {
    map g | g in s.signals :: if g in gs && s.signals[g].owner == c then Signal(c, epoch) else s.signals[g]
  }

  lemma {:induction false} CountOwnAtLeastNamed(s: State, c: Id, gs: seq<Id>)
    ensures |NamedOwn(s, c, gs)| <= CountOwn(s, c, gs)
    ensures CountOwn(s, c, gs) > 0 ==> NamedOwn(s, c, gs) != {}
    ensures (forall i, j | 0 <= i < j < |gs| && Own(s, c, gs[i]) :: gs[i] != gs[j]) ==>
              |NamedOwn(s, c, gs)| == CountOwn(s, c, gs)
  {
    if gs != [] {
      var n := |gs| - 1;
      var rest, g := gs[..n], gs[n];
      CountOwnAtLeastNamed(s, c, rest);
      assert gs == rest + [g];
      if Own(s, c, g) {
        assert NamedOwn(s, c, gs) == NamedOwn(s, c, rest) + {g};
        assert g in NamedOwn(s, c, gs);
      } else {
        assert NamedOwn(s, c, gs) == NamedOwn(s, c, rest);
      }
    }
  }

  /** What `bio_loop` does when the running coroutine yields. */
  function Suspend(s: State, c: Id): State
    requires c in s.coros
  {
    var waiting := s.coros[c].blocking > 0;
    var s' := s.(coros := s.coros[c := s.coros[c].(status := if waiting then Waiting else Ready)], running := None);
    if waiting then s' else PushReady(s', c)
  }

  /** Whether `bio_wait_for_signals` suspends its caller. */
  predicate MustWait(s: State, c: Id, gs: seq<Id>, all: bool) {
    CountOwn(s, c, gs) > 0 && (all || !SomeRaised(s, gs))
  }

  /** `bio_wait_for_signals` */
  function WaitForSignals(s: State, c: Id, gs: seq<Id>, all: bool): State
    requires c in s.coros
  {
    var coro := s.coros[c].(epoch := s.coros[c].epoch + 1);
    var marked := s.(signals := Mark(s, c, gs, coro.epoch));
    var n := CountOwn(s, c, gs);
    var named := NamedOwn(s, c, gs);
    if MustWait(s, c, gs, all) then
      Suspend(
        marked.(coros := s.coros[c := coro.(blocking := if all then n else 1)],
                waits := s.waits[c := Wait(named, all, if n >= |named| then n - |named| else 0)]), c)
    else marked.(coros := s.coros[c := coro])
  }

  // ----- monitors -----

  /** `bio_monitor` */
  function MonitorCoro(s: State, t: Id, g: Id): (State, Id) {
    if t in s.coros && g in s.signals && s.signals[g].owner != t then
      (s.(monitors := s.monitors[s.nextId := Monitor(t, g)],
          coros := s.coros[t := s.coros[t].(monitors := s.coros[t].monitors + [s.nextId])],
          nextId := s.nextId + 1),
       s.nextId)
    else (RaiseSignal(s, g).0, INVALID)
  }

  function Remove(q: seq<Id>, m: Id): seq<Id> {
    if q == [] then []
    else if q[0] == m then q[1..]
    else [q[0]] + Remove(q[1..], m)
  }

  /** Unlink a monitor from its coroutine and close its handle. */
  function DropMonitor(s: State, m: Id): State
    requires m in s.monitors && s.monitors[m].target in s.coros
  {
    var t := s.monitors[m].target;
    s.(monitors := s.monitors - {m},
       coros := s.coros[t := s.coros[t].(monitors := Remove(s.coros[t].monitors, m))])
  }

  /** `bio_unmonitor` */
  function Unmonitor(s: State, m: Id): State {
    if m in s.monitors && s.monitors[m].target in s.coros then DropMonitor(s, m) else s
  }

  // ----- coroutines -----

  /** `bio_spawn_ex` */
  function Spawn(s: State, daemon: bool): (State, Id) {
    (PushReady(
       s.(coros := s.coros[s.nextId := Coro(Ready, daemon, 0, 0, {}, [])], nextId := s.nextId + 1,
          numCoros := s.numCoros + 1, numDaemons := s.numDaemons + (if daemon then 1 else 0)), s.nextId),
     s.nextId)
  }

  /** The daemon part of `bio_wait_for_exit`. */
  function Daemonize(s: State, c: Id): State
    requires c in s.coros
  {
    if s.coros[c].daemon then s
    else s.(coros := s.coros[c := s.coros[c].(daemon := true)], numDaemons := s.numDaemons + 1)
  }

  /** Raise and drop the monitors of a dying coroutine, front to back. */
  function FireMonitors(s: State, c: Id, ms: seq<Id>): State
    decreases |ms|
  {
    if ms == [] then s
    else
      var s1 := if ms[0] in s.monitors then RaiseSignal(s, s.monitors[ms[0]].signal).0 else s;
      FireMonitors(Unmonitor(s1, ms[0]), c, ms[1..])
  }

  /** The signals of a dying coroutine are closed without waking anybody. */
  function DropSignals(s: State, c: Id): State
    requires c in s.coros
  {
    s.(signals := s.signals - s.coros[c].signals, coros := s.coros[c := s.coros[c].(signals := {})])
  }

  function Bury(s: State, c: Id): State
    requires c in s.coros
  {
    s.(coros := s.coros - {c}, running := None, numCoros := s.numCoros - 1,
       numDaemons := s.numDaemons - (if s.coros[c].daemon then 1 else 0))
  }

  lemma FireOneKeepsCoros(s: State, m: Id)
    ensures var s1 := if m in s.monitors then RaiseSignal(s, s.monitors[m].signal).0 else s;
      Unmonitor(s1, m).coros.Keys == s.coros.Keys
  {
  }

  lemma {:induction false} FireMonitorsKeepsCoros(s: State, c: Id, ms: seq<Id>)
    ensures FireMonitors(s, c, ms).coros.Keys == s.coros.Keys
    decreases |ms|
  {
    if ms != [] {
      var s1 := if ms[0] in s.monitors then RaiseSignal(s, s.monitors[ms[0]].signal).0 else s;
      FireOneKeepsCoros(s, ms[0]);
      FireMonitorsKeepsCoros(Unmonitor(s1, ms[0]), c, ms[1..]);
    }
  }

  /** The cleanup branch of `bio_loop` for a coroutine that has returned. */
  function Die(s: State, c: Id): State
    requires c in s.coros
  {
    var s1 := DropSignals(s, c);
    FireMonitorsKeepsCoros(s1, c, s.coros[c].monitors);
    Bury(FireMonitors(s1, c, s.coros[c].monitors), c)
  }

  /** `bio_loop` resumes the next coroutine of the round. */
  function Resume(s: State): State
    requires s.index < |s.current| && s.current[s.index] in s.coros
  {
    var c := s.current[s.index];
    s.(coros := s.coros[c := s.coros[c].(status := Running, blocking := 0)], running := Some(c),
       index := s.index + 1, waits := s.waits - {c}, ran := s.ran + [c])
  }

  /** The end of a round: the lists are swapped. */
  function NextRound(s: State): State {
    s.(current := s.next, next := [], index := 0)
  }

  /** The exit test of `bio_loop`. */
  predicate ShouldStop(s: State) {
    if s.terminating then s.numCoros == 0 else s.numCoros == s.numDaemons
  }

  // ----- runs -----

  datatype Event =
    // by the running coroutine, or by the program and the event loop while none runs
    | ERaise(g: Id)
    | EMonitor(t: Id, g: Id)
    | EUnmonitor(m: Id)
    | ESpawn(daemon: bool)
    // by the running coroutine only
    | EMake
    | EWait(gs: seq<Id>, all: bool)
    | EDaemonize
    | EYield
    | EExit
    // by the event loop only
    | EResume
    | ENextRound
    | ETerminate

  predicate ByCoroutine(e: Event) {
    e.EMake? || e.EWait? || e.EDaemonize? || e.EYield? || e.EExit?
  }

  predicate ByLoop(e: Event) {
    e.EResume? || e.ENextRound? || e.ETerminate?
  }

  predicate Enabled(s: State, e: Event) {
    && (ByCoroutine(e) ==> s.running.Some? && s.running.value in s.coros)
    && (ByLoop(e) ==> s.running.None?)
    && (e.EResume? ==> s.index < |s.current| && s.current[s.index] in s.coros)
    && (e.ENextRound? ==> s.index == |s.current|)
  }

  function Apply(s: State, e: Event): State
    requires Enabled(s, e)
  {
    match e
    case ERaise(g) => RaiseSignal(s, g).0
    case EMonitor(t, g) => MonitorCoro(s, t, g).0
    case EUnmonitor(m) => Unmonitor(s, m)
    case ESpawn(daemon) => Spawn(s, daemon).0
    case EMake => MakeSignal(s, s.running.value).0
    case EWait(gs, all) => WaitForSignals(s, s.running.value, gs, all)
    case EDaemonize => Daemonize(s, s.running.value)
    case EYield => Suspend(s, s.running.value)
    case EExit => Die(s, s.running.value)
    case EResume => Resume(s)
    case ENextRound => NextRound(s)
    case ETerminate => s.(terminating := true)
  }

  /** `states` is what the events do one after the other, from `states[0]`. */
  ghost predicate IsTrace(events: seq<Event>, states: seq<State>) {
    |states| == |events| + 1 && forall i | 0 <= i < |events| :: StepAt(events, states, i)
  }

  ghost predicate StepAt(events: seq<Event>, states: seq<State>, i: nat)
    requires i < |events| && |states| == |events| + 1
  {
    Enabled(states[i], events[i]) && states[i + 1] == Apply(states[i], events[i])
  }

  ghost predicate IsRun(events: seq<Event>, states: seq<State>) {
    IsTrace(events, states) && states[0] == START
  }

  lemma TraceStep(events: seq<Event>, states: seq<State>, i: nat)
    requires IsTrace(events, states) && i < |events|
    ensures Enabled(states[i], events[i]) && states[i + 1] == Apply(states[i], events[i])
  {
    assert StepAt(events, states, i);
  }

  lemma OneStepMore(events: seq<Event>, states: seq<State>, e: Event)
    requires IsTrace(events, states) && Enabled(states[|events|], e)
    ensures IsTrace(events + [e], states + [Apply(states[|events|], e)])
  {
    var events', states' := events + [e], states + [Apply(states[|events|], e)];
    forall i | 0 <= i < |events'| ensures StepAt(events', states', i) {
      if i < |events| { assert StepAt(events, states, i); }
    }
  }
}
