/** The code of a service call as it is in src/service.c: a coroutine that makes signals, monitors the
    service, sends to its mailbox and waits, in the scheduler of module Coroutines and with a mailbox of
    module Mailbox.  Whatever other coroutines and the outside do meanwhile, this is one of the runs of
    module ServiceCall, so what is proved there holds of it. */
module ServiceCode {
  import opened Coroutines
  import opened Effects
  import opened SchedulerProofs
  import A = ServiceCall
  import Mailbox
  import opened Wrappers

  /** The call: who calls which service coroutine, the cancel signal passed in and whose it is, and the
      message, which is told apart from the messages of other calls. */
  datatype Call = Call(caller: Id, service: Id, cancel: Id, kind: A.CancelSignal, message: Mailbox.Message)

  datatype Pc = NotCalled | Sending | Waiting | Returned(status: A.Status)

  /** The scheduler, the service's mailbox while it is open, the call's place and local handles, the
      copies of the message in the handler's hands, and the history of module ServiceCall. */
  datatype World = World(
    sched: State, box: Option<Mailbox.Box>,
    pc: Pc, ack: Id, mon: Id, monitor: Id,
    held: nat, responding: bool, enqueued: nat, begun: nat, inTime: bool)

  predicate Raised(s: State, g: Id) {
    g != INVALID && g !in s.signals
  }

  // ----- the calling coroutine -----

  /** After the wait: the verdict and the clean-up. */
  function Finish(x: Call, w: World): World {
    var status :=
      if Raised(w.sched, w.ack) then A.Ok else if Raised(w.sched, x.cancel) then A.Cancelled else A.TargetDead;
    var s := RaiseSignal(RaiseSignal(Unmonitor(w.sched, w.monitor), w.mon).0, w.ack).0;
    w.(sched := s, pc := Returned(status))
  }

  function Signals(x: Call, w: World): seq<Id> {
    [w.ack, w.mon, x.cancel]
  }

  function AwaitReply(x: Call, w: World): World
    requires x.caller in w.sched.coros
  {
    var s := WaitForSignals(w.sched, x.caller, Signals(x, w), false);
    if MustWait(w.sched, x.caller, Signals(x, w), false) then w.(sched := s, pc := Pc.Waiting)
    else Finish(x, w.(sched := s))
  }

  /** Put the message in the mailbox and raise the signal parked there. */
  function Put(x: Call, w: World): World
    requires w.box.Some?
  {
    var r := Mailbox.Sent(w.box.value, x.message);
    w.(box := Some(r.box), sched := RaiseSignal(w.sched, r.raised).0, enqueued := w.enqueued + 1)
  }

  predicate CanPut(w: World) {
    w.box.Some? && |w.box.value.queue| < w.box.value.capacity
  }

  lemma PutKeepsCaller(x: Call, w: World)
    requires w.box.Some?
    ensures x.caller in w.sched.coros ==> x.caller in Put(x, w).sched.coros
  {
  }

  /** A turn of the retry loop, with the wait when it is the last and the yield when it is not. */
  function Try(x: Call, w: World): World
    requires x.caller in w.sched.coros
  {
    if Raised(w.sched, x.cancel) || Raised(w.sched, w.mon) then AwaitReply(x, w)
    else if CanPut(w) then PutKeepsCaller(x, w); AwaitReply(x, Put(x, w))
    else w.(sched := Suspend(w.sched, x.caller))
  }

  /** The signals and the monitor of the call. */
  function Prepare(x: Call, w: World): World
    requires x.caller in w.sched.coros
  {
    var (s1, ack) := MakeSignal(w.sched, x.caller);
    var (s2, mon) := MakeSignal(s1, x.caller);
    var (s3, m) := MonitorCoro(s2, x.service, mon);
    w.(sched := s3, ack := ack, mon := mon, monitor := m, pc := Sending)
  }

  lemma PrepareKeepsCaller(x: Call, w: World)
    requires x.caller in w.sched.coros
    ensures x.caller in Prepare(x, w).sched.coros
  {
  }

  function Start(x: Call, w: World): World
    requires x.caller in w.sched.coros
  {
    if x.service !in w.sched.coros then w.(pc := Returned(A.TargetDead))
    else PrepareKeepsCaller(x, w); Try(x, Prepare(x, w))
  }

  /** What the coroutine does when it is resumed inside the call. */
  function GoOn(x: Call, w: World): World
    requires x.caller in w.sched.coros
  {
    if w.pc.Sending? then Try(x, w) else Finish(x, w)
  }

  // ----- everybody -----

  datatype Step =
    | Begin                        // the caller calls
    | Continue                     // the resumed caller goes on
    | Others(e: Event)             // anything else in the scheduler
    | Park(g: Id)                  // somebody's receive stores its new signal in the empty mailbox
    | Send(m: Mailbox.Message)     // another message is sent to the service
    | CloseBox
    | Receive                      // the service takes the first message
    | BeginResponse
    | EndResponse
    | Drop

  predicate InCall(w: World) {
    w.pc.Sending? || w.pc.Waiting?
  }

  /** Others do not use what only the call has a handle to. */
  predicate Local(w: World, e: Event) {
    && e != ERaise(w.ack) && e != ERaise(w.mon) && e != EUnmonitor(w.monitor)
    && (e.EMonitor? ==> e.g != w.ack && e.g != w.mon)
  }

  predicate ServiceRuns(x: Call, w: World) {
    w.sched.running == Some(x.service) && x.service in w.sched.coros
  }

  /** In a call only `Continue` is a step of the caller; a service closes its mailbox before it ends. */
  predicate Possible(x: Call, w: World, st: Step) {
    match st
    case Begin => w.pc.NotCalled? && w.sched.running == Some(x.caller) && x.caller in w.sched.coros
    case Continue => InCall(w) && w.sched.running == Some(x.caller) && x.caller in w.sched.coros
    case Others(e) =>
      && Enabled(w.sched, e)
      && (InCall(w) ==> w.sched.running != Some(x.caller) && Local(w, e))
      && (e.EExit? && ServiceRuns(x, w) ==> w.box.None?)
    case Park(g) =>
      && w.box.Some? && w.box.value.queue == [] && w.box.value.signal == Mailbox.INVALID
      && g < w.sched.nextId && g != x.cancel && (InCall(w) ==> g != w.ack && g != w.mon)
    case Send(m) => w.box.Some? && m != x.message
    case CloseBox => w.box.Some?
    case Receive => ServiceRuns(x, w) && w.box.Some? && w.box.value.queue != []
    case BeginResponse => ServiceRuns(x, w) && w.held > 0 && !w.responding
    case EndResponse => ServiceRuns(x, w) && w.responding
    case Drop => ServiceRuns(x, w) && w.held > 0 && !w.responding
  }

  function DoOthers(x: Call, w: World, e: Event): World
    requires Enabled(w.sched, e)
  {
    var ended := e.EExit? && ServiceRuns(x, w);
    w.(sched := Apply(w.sched, e), held := if ended then 0 else w.held, responding := w.responding && !ended)
  }

  function DoReceive(x: Call, w: World): World
    requires w.box.Some? && w.box.value.queue != []
  {
    var ours := w.box.value.queue[0] == x.message && !Raised(w.sched, x.cancel);
    w.(box := Some(Mailbox.Take(w.box.value).0), held := w.held + if ours then 1 else 0)
  }

  function Next(x: Call, w: World, st: Step): World
    requires Possible(x, w, st)
  {
    match st
    case Begin => Start(x, w)
    case Continue => GoOn(x, w)
    case Others(e) => DoOthers(x, w, e)
    case Park(g) => w.(box := Some(w.box.value.(signal := g)))
    case Send(m) =>
      var r := Mailbox.Sent(w.box.value, m);
      w.(box := Some(r.box), sched := RaiseSignal(w.sched, r.raised).0)
    case CloseBox => w.(box := None, sched := RaiseSignal(w.sched, w.box.value.signal).0)
    case Receive => DoReceive(x, w)
    case BeginResponse =>
      if Raised(w.sched, x.cancel) then w else w.(responding := true, begun := w.begun + 1)
    case EndResponse =>
      w.(sched := RaiseSignal(w.sched, w.ack).0, responding := false, inTime := w.inTime || !w.pc.Returned?)
    case Drop => w.(held := w.held - 1)
  }

  /** Any moment at which a coroutine may make the call. */
  ghost predicate Initial(x: Call, w: World) {
    && Inv(w.sched) && Given(x, w)
    && w.pc == NotCalled && w.ack == w.mon == w.monitor == INVALID
    && (w.box.Some? ==> x.message !in w.box.value.queue)
    && w.held == w.enqueued == w.begun == 0 && !w.responding && !w.inTime
  }

  ghost predicate StepAt(x: Call, steps: seq<Step>, worlds: seq<World>, i: nat)
    requires i < |steps| && |worlds| == |steps| + 1
  {
    Possible(x, worlds[i], steps[i]) && worlds[i + 1] == Next(x, worlds[i], steps[i])
  }

  ghost predicate IsPath(x: Call, steps: seq<Step>, worlds: seq<World>) {
    |worlds| == |steps| + 1 && forall i | 0 <= i < |steps| :: StepAt(x, steps, worlds, i)
  }

  ghost predicate IsRun(x: Call, steps: seq<Step>, worlds: seq<World>) {
    IsPath(x, steps, worlds) && Initial(x, worlds[0])
  }

  lemma RunStep(x: Call, steps: seq<Step>, worlds: seq<World>, i: nat)
    requires IsPath(x, steps, worlds) && i < |steps|
    ensures Possible(x, worlds[i], steps[i]) && worlds[i + 1] == Next(x, worlds[i], steps[i])
  {
    assert StepAt(x, steps, worlds, i);
  }

  // ----- the call in the eyes of module ServiceCall -----

  /** What the caller waits for is all still to come. */
  predicate AllLive(x: Call, w: World) {
    && w.ack in w.sched.signals && w.mon in w.sched.signals
    && (x.kind == A.Own ==> x.cancel in w.sched.signals)
  }

  function AbsCaller(x: Call, w: World): A.Caller {
    match w.pc
    case NotCalled => A.NotCalled
    case Sending => A.Sending
    case Waiting => A.Waiting(!AllLive(x, w))
    case Returned(status) => A.Returned(status)
  }

  function Copies(x: Call, box: Option<Mailbox.Box>): nat {
    if box.Some? then multiset(box.value.queue)[x.message] else 0
  }

  function Abs(x: Call, w: World): A.State {
    A.State(
      AbsCaller(x, w), x.caller == x.service, x.kind,
      Raised(w.sched, w.ack), Raised(w.sched, w.mon), Raised(w.sched, x.cancel),
      x.service in w.sched.coros, w.box.Some?, CanPut(w), Copies(x, w.box), w.held, w.responding,
      w.enqueued, w.begun, w.inTime)
  }

  // ----- invariant -----

  /** What is given to the call, or known to all, at any time. */
  ghost predicate Given(x: Call, w: World) {
    && Registered(w.sched)
    && x.caller < w.sched.nextId && x.service < w.sched.nextId && x.cancel < w.sched.nextId
    && (x.kind == A.NoSignal <==> x.cancel == INVALID)
    && (x.cancel in w.sched.signals ==> (w.sched.signals[x.cancel].owner == x.caller <==> x.kind == A.Own))
    && (w.box.Some? ==> w.box.value.signal < w.sched.nextId
                        && (x.cancel != INVALID ==> w.box.value.signal != x.cancel))
  }

  ghost predicate Handles(x: Call, w: World) {
    && 0 < w.ack < w.sched.nextId && 0 < w.mon < w.sched.nextId && w.monitor < w.sched.nextId
    && w.ack != w.mon && x.cancel != w.ack && x.cancel != w.mon
    && (w.box.Some? ==> w.box.value.signal != w.ack && w.box.value.signal != w.mon)
  }

  /** The call's own signals, and its monitor: the only one bound to raise its monitor signal, which is
      live as long as the service is. */
  ghost predicate Bound(x: Call, w: World) {
    && (w.ack in w.sched.signals ==> w.sched.signals[w.ack].owner == x.caller)
    && (w.mon in w.sched.signals ==> w.sched.signals[w.mon].owner == x.caller)
    && (w.mon in w.sched.signals <==> x.service in w.sched.coros && x.service != x.caller)
    && (w.mon in w.sched.signals ==>
          w.monitor in w.sched.monitors && w.sched.monitors[w.monitor] == Monitor(x.service, w.mon))
    && (forall m | m in w.sched.monitors ::
          w.sched.monitors[m].signal != w.ack && (w.sched.monitors[m].signal == w.mon ==> m == w.monitor))
  }

  /** The wait the caller is in. */
  function CallWait(x: Call, w: World): Coroutines.Wait {
    Coroutines.Wait({w.ack, w.mon} + (if x.kind == A.Own then {x.cancel} else {}), false, 0)
  }

  /** A waiting caller is in its wait, or has been resumed out of it because something was raised. */
  ghost predicate Asleep(x: Call, w: World) {
    || (x.caller in w.sched.waits && w.sched.waits[x.caller] == CallWait(x, w))
    || (Runs(w.sched, x.caller) && !AllLive(x, w))
  }

  /** After the return both signals and the monitor are closed; a call that made none found no service. */
  ghost predicate Closed(x: Call, w: World) {
    && w.ack < w.sched.nextId && w.mon < w.sched.nextId && w.monitor < w.sched.nextId
    && (w.monitor != INVALID ==> w.monitor !in w.sched.monitors)
    && w.ack !in w.sched.signals && w.mon !in w.sched.signals
    && (w.ack == INVALID <==> w.mon == INVALID)
    && (w.mon == INVALID ==> x.service !in w.sched.coros)
  }

  ghost predicate Core(x: Call, w: World) {
    && Given(x, w)
    && (w.pc.NotCalled? ==> w.ack == w.mon == w.monitor == INVALID)
    && (InCall(w) ==> Handles(x, w) && Bound(x, w) && x.caller in w.sched.coros)
    && (w.pc.Returned? ==> Closed(x, w))
    && (w.enqueued > 0 ==> w.ack != INVALID)
  }

  ghost predicate InvW(x: Call, w: World) {
    Inv(w.sched) && Core(x, w) && A.Inv(Abs(x, w)) && (w.pc.Waiting? ==> Asleep(x, w))
  }
}
