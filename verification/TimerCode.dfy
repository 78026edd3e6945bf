/** The code of one timer as it is in src/timer.c: a coroutine of module Coroutines that sleeps on a signal
    which the heap of module TimerQueue raises.  Whatever other coroutines, other delayed signals and the
    outside do meanwhile, this is one of the runs of module TimerTask, so what is proved there holds of it. */
module TimerCode {
  import opened Coroutines
  import opened Effects
  import opened SchedulerProofs
  import Q = TimerQueue
  import T = TimerTask
  import opened Wrappers

  datatype Pc = NotStarted | Sleeping | Calling(start: int) | Finished

  /** `bio_timer_impl_t`, but for the wake signal; `open` tells whether its handle is. */
  datatype Record = Record(kind: T.Kind, timeout: int, due: int, cancelled: bool, open: bool)

  /** The history of module TimerTask; `wakeAt` is when the heap raises the wake signal. */
  datatype History = History(wakeAt: int, askedAt: int, asked: int, calls: seq<T.Call>, freed: nat)

  /** The scheduler, the timer heap with its cached clock, the platform's clock, and the timer. */
  datatype World = World(
    sched: State, heap: seq<Q.Entry>, now: int, cached: int, pc: Pc, wake: Id, rec: Record, hist: History)

  predicate Raised(s: State, g: Id) {
    g !in s.signals
  }

  // ----- the timer's coroutine -----

  /** Up to and including the wait: a new signal, raised after the time left. */
  function Arm(k: Id, w: World): World
    requires k in w.sched.coros
  {
    var (s, g) := MakeSignal(w.sched, k);
    var delay := w.rec.due - w.now;
    if delay > 0 then
      w.(sched := WaitForSignals(s, k, [g], true), heap := Q.Scheduled(w.heap, w.cached, g, delay),
         pc := Sleeping, wake := g, hist := w.hist.(wakeAt := w.cached + delay))
    else
      w.(sched := WaitForSignals(RaiseSignal(s, g).0, k, [g], true),
         pc := Sleeping, wake := g, hist := w.hist.(wakeAt := w.cached))
  }

  /** The end of the coroutine's body: the handle is closed and the record freed. */
  function Leave(w: World): World {
    w.(pc := Finished, rec := w.rec.(open := false), hist := w.hist.(freed := w.hist.freed + 1))
  }

  /** From the wait to the callback, the end or the next wait. */
  function GoOn(k: Id, w: World, later: int): World
    requires k in w.sched.coros
  {
    if w.rec.cancelled then Leave(w)
    else if w.now >= w.rec.due then
      w.(pc := Calling(w.now), hist := w.hist.(calls := w.hist.calls + [T.Call(w.now, w.rec.due, w.rec.timeout)]))
    else Arm(k, w.(now := later))
  }

  /** A timer that repeats, as it is when its callback has returned. */
  function Repeated(w: World): World
    requires w.pc.Calling?
  {
    w.(rec := w.rec.(due := w.pc.start + w.rec.timeout))
  }

  /** From the callback to the end or the next wait. */
  function ReturnFrom(k: Id, w: World): World
    requires k in w.sched.coros && w.pc.Calling?
  {
    if w.rec.kind.Oneshot? then Leave(w) else Arm(k, Repeated(w))
  }

  // ----- everybody -----

  /** `bio_create_timer`; the new coroutine is `sched.nextId`. */
  function Created(sched: State, heap: seq<Q.Entry>, now: int, cached: int, kind: T.Kind, timeout: int): World {
    World(Spawn(sched, false).0, heap, now, cached, NotStarted, INVALID,
          Record(kind, timeout, now + timeout, false, true), History(0, now, now + timeout, [], 0))
  }

  datatype Step =
    | Begin                        // the coroutine runs for the first time
    | Resume(later: int)           // it goes on after its wait
    | Return                       // the callback returns
    | Reset(timeout: int)          // somebody calls bio_reset_timer
    | Cancel                       // somebody calls bio_cancel_timer
    | Tick(t: int)                 // time passes
    | Update                       // bio_timer_update
    | Delay(g: Id, delay: int)     // somebody calls bio_raise_signal_after
    | Others(e: Event)             // anything else in the scheduler, the callback's own operations included

  /** The timer's coroutine does not run, unless it is inside the callback. */
  predicate Elsewhere(k: Id, w: World) {
    w.sched.running == Some(k) ==> w.pc.Calling?
  }

  /** Nobody but the timer and the heap has a handle to the wake signal during the sleep. */
  predicate Local(w: World, e: Event) {
    w.pc.Sleeping? ==> e != ERaise(w.wake) && (e.EMonitor? ==> e.g != w.wake)
  }

  predicate Possible(k: Id, w: World, st: Step) {
    match st
    case Begin => w.pc.NotStarted? && Runner(k, w)
    case Resume(later) => w.pc.Sleeping? && Runner(k, w) && later >= w.now
    case Return => w.pc.Calling? && Runner(k, w)
    case Reset(_) => Elsewhere(k, w)
    case Cancel => Elsewhere(k, w)
    case Tick(t) => t >= w.now
    case Update => w.sched.running.None?
    case Delay(g, _) => Elsewhere(k, w) && g < w.sched.nextId && (w.pc.Sleeping? ==> g != w.wake)
    case Others(e) =>
      && Enabled(w.sched, e) && Local(w, e)
      && (w.sched.running == Some(k) ==> if e.EExit? then w.pc.Finished? else w.pc.Calling?)
  }

  predicate Runner(k: Id, w: World) {
    w.sched.running == Some(k) && k in w.sched.coros
  }

  function SignalsIn(entries: seq<Q.Entry>): set<Id> {
    set e | e in entries :: e.signal
  }

  /** Raise the signals of the entries, one after the other. */
  function RaiseAll(s: State, entries: seq<Q.Entry>): State {
    if entries == [] then s
    else
      var n := |entries| - 1;
      RaiseSignal(RaiseAll(s, entries[..n]), entries[n].signal).0
  }

  ghost function Next(k: Id, w: World, st: Step): World
    requires Possible(k, w, st)
  {
    match st
    case Begin => Arm(k, w)
    case Resume(later) => GoOn(k, w, later)
    case Return => ReturnFrom(k, w)
    case Reset(timeout) => if w.rec.open then Asked(w, timeout) else w
    case Cancel => if w.rec.open then Cancelled(w) else w
    case Tick(t) => w.(now := t)
    case Update =>
      var (fired, rest) := Q.Fire(w.heap, w.now);
      w.(sched := RaiseAll(w.sched, fired), heap := rest, cached := w.now)
    case Delay(g, delay) => Delayed(w, g, delay)
    case Others(e) => w.(sched := Coroutines.Apply(w.sched, e))
  }

  function Asked(w: World, timeout: int): World {
    w.(rec := w.rec.(timeout := timeout, due := w.now + timeout),
       hist := w.hist.(askedAt := w.now, asked := w.now + timeout))
  }

  function Cancelled(w: World): World {
    w.(sched := RaiseSignal(w.sched, w.wake).0, rec := w.rec.(cancelled := true, open := false))
  }

  /** `bio_raise_signal_after` */
  function Delayed(w: World, g: Id, delay: int): World {
    if delay > 0 then w.(heap := Q.Scheduled(w.heap, w.cached, g, delay))
    else w.(sched := RaiseSignal(w.sched, g).0)
  }

  ghost predicate Leads(k: Id, w: World, st: Step, w': World) {
    Possible(k, w, st) && w' == Next(k, w, st)
  }

  ghost predicate LeadsAt(k: Id, steps: seq<Step>, worlds: seq<World>, i: nat)
    requires i < |steps| && |worlds| == |steps| + 1
  {
    Leads(k, worlds[i], steps[i], worlds[i + 1])
  }

  ghost predicate IsPath(k: Id, steps: seq<Step>, worlds: seq<World>) {
    |worlds| == |steps| + 1 && forall i | 0 <= i < |steps| :: LeadsAt(k, steps, worlds, i)
  }

  ghost predicate IsRun(k: Id, steps: seq<Step>, worlds: seq<World>) {
    IsPath(k, steps, worlds) && Fresh(k, worlds[0])
  }

  ghost predicate HeapOk(w: World) {
    Q.IsHeap(w.heap) && forall e | e in w.heap :: e.signal < w.sched.nextId
  }

  /** A timer just created, with coroutine `k`, whatever else there is in the scheduler and the heap. */
  ghost predicate Fresh(k: Id, w: World) {
    && Inv(w.sched) && Registered(w.sched) && HeapOk(w) && w.cached <= w.now
    && k in w.sched.coros && k < w.sched.nextId && w.pc == NotStarted && w.wake == INVALID
    && w.rec == Record(w.rec.kind, w.rec.timeout, w.now + w.rec.timeout, false, true)
    && w.hist == History(0, w.now, w.rec.due, [], 0)
  }

  // ----- the timer in the eyes of module TimerTask -----

  function AbsPhase(w: World): T.Phase {
    match w.pc
    case NotStarted => T.NotStarted
    case Sleeping => T.Sleeping(w.hist.wakeAt, Raised(w.sched, w.wake))
    case Calling(start) => T.Calling(start)
    case Finished => T.Finished
  }

  function Abs(w: World): T.State {
    T.State(w.rec.kind, w.rec.timeout, w.rec.due, w.rec.cancelled, w.rec.open, AbsPhase(w), w.now, w.cached,
            w.hist.askedAt, w.hist.asked, w.hist.calls, w.hist.freed)
  }

  /** What others do takes no time there. */
  function AbsStep(w: World, st: Step): T.Action {
    match st
    case Begin => T.Begin
    case Resume(later) => T.Resume(later)
    case Return => T.Return
    case Reset(timeout) => T.Reset(timeout)
    case Cancel => T.Cancel
    case Tick(t) => T.Tick(t)
    case Update => T.Update
    case Delay(_, _) => T.Tick(w.now)
    case Others(_) => T.Tick(w.now)
  }

  // ----- invariant -----

  /** A live wake signal is the coroutine's, and the heap will raise it once, at the time known. */
  ghost predicate Bound(k: Id, w: World) {
    && w.wake != INVALID && k in w.sched.coros
    && (w.wake in w.sched.signals ==>
          w.sched.signals[w.wake].owner == k && Q.Entry(w.hist.wakeAt, w.wake) in w.heap)
    && (forall e | e in w.heap :: e.signal == w.wake ==> e.due == w.hist.wakeAt)
    && (forall m | m in w.sched.monitors :: w.sched.monitors[m].signal != w.wake)
  }

  ghost predicate Core(k: Id, w: World) {
    && Registered(w.sched) && HeapOk(w) && w.wake < w.sched.nextId && k < w.sched.nextId
    && (!w.pc.Finished? ==> k in w.sched.coros)
    && (w.pc.Sleeping? ==> Bound(k, w))
  }

  function SleepWait(w: World): Coroutines.Wait {
    Coroutines.Wait({w.wake}, true, 0)
  }

  /** A sleeping coroutine is in its wait, or past it because its signal was raised. */
  ghost predicate Asleep(k: Id, w: World) {
    || (k in w.sched.waits && w.sched.waits[k] == SleepWait(w))
    || (Runs(w.sched, k) && Raised(w.sched, w.wake))
  }

  /** The invariant but for the scheduler's own. */
  ghost predicate Sane(k: Id, w: World) {
    Core(k, w) && (w.pc.Sleeping? ==> Asleep(k, w))
  }

  ghost predicate InvW(k: Id, w: World) {
    Inv(w.sched) && Sane(k, w)
  }
}
