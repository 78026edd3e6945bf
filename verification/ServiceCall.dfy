/** One service call of src/service.c and include/bio/service.h: the calling coroutine, the service
    coroutine that handles its message, and whoever raises the cancel signal, in any interleaving.
    Between two steps of a coroutine all the others may run. */
module ServiceCall {
  import opened Wrappers

  datatype Status = Ok | Cancelled | TargetDead

  /** The cancel signal passed in: the invalid handle, a signal of the calling coroutine, or a signal
      that another coroutine made. */
  datatype CancelSignal = NoSignal | Own | Foreign

  datatype Caller = NotCalled | Sending | Waiting(woken: bool) | Returned(status: Status)

  /** `toSelf`: the caller is the service coroutine itself. `open` and `room` tell whether the mailbox
      is open and has a free slot; the rest of its content belongs to other calls. `queued` and `held`
      are the copies of the message in the mailbox and in the handler's hands. History: how often the
      message was put in the mailbox, how often a response to it was begun, and whether one was
      finished while the call was still on. */
  datatype State = State(
    caller: Caller, toSelf: bool, cancel: CancelSignal,
    ackRaised: bool, monitorRaised: bool, cancelRaised: bool,
    alive: bool, open: bool, room: bool, queued: nat, held: nat, responding: bool,
    enqueued: nat, begun: nat, inTime: bool)

  predicate Init(s: State) {
    && s.caller == NotCalled
    && !s.ackRaised && !s.monitorRaised
    && s.queued == s.held == s.enqueued == s.begun == 0 && !s.responding && !s.inTime
  }

  datatype Action =
    | Call           // bio__service_call up to where it first gives up control
    | Attempt        // after a yield, the next turn of its retry loop
    | ResumeCaller   // from the wait to the return
    | RaiseCancel
    | ChangeRoom(room: bool)
    | CloseMailbox
    | Receive        // the service takes the message out; its loop drops a cancelled one
    | BeginResponse  // the head of a bio_respond block
    | EndResponse    // the end of one
    | Drop           // the handler is done with the message
    | Die            // the service coroutine terminates

  /** `bio__service_is_call_cancelled` */
  predicate IsCancelled(s: State) {
    s.cancel != NoSignal && s.cancelRaised
  }

  /** `bio__service_begin_response` on a message of a call, whose ack signal is a valid handle. */
  predicate MayRespond(s: State) {
    !IsCancelled(s)
  }

  predicate Enabled(s: State, a: Action) {
    match a
    case Call => s.caller.NotCalled?
    case Attempt => s.caller.Sending?
    case ResumeCaller => s.caller.Waiting? && s.caller.woken
    case RaiseCancel => s.cancel != NoSignal
    case ChangeRoom(_) => true
    case CloseMailbox => true
    case Receive => s.alive && s.open && s.queued > 0
    case BeginResponse => s.alive && s.held > 0 && !s.responding
    case EndResponse => s.alive && s.responding
    case Drop => s.alive && s.held > 0 && !s.responding
    case Die => s.alive && (s.toSelf ==> !s.caller.Sending?)
  }

  /** The verdict, and the clean-up that raises both of the call's own signals. */
  function Return(s: State): State {
    var status := if s.ackRaised then Ok else if IsCancelled(s) then Cancelled else TargetDead;
    s.(caller := Returned(status), ackRaised := true, monitorRaised := true)
  }

  /** The wait is skipped when a named signal is already raised. */
  function Wait(s: State): State {
    if s.ackRaised || s.monitorRaised || IsCancelled(s) then Return(s) else s.(caller := Waiting(false))
  }

  function Wake(c: Caller): Caller {
    if c.Waiting? then Waiting(true) else c
  }

  /** A turn of the retry loop, with the wait when it is the last. */
  function TryOnce(s: State): State {
    if IsCancelled(s) || s.monitorRaised then Wait(s)
    else if s.open && s.room then Wait(s.(queued := s.queued + 1, enqueued := s.enqueued + 1))
    else s
  }

  function Apply(s: State, a: Action): State
    requires Enabled(s, a)
  {
    match a
    case Call =>
      if !s.alive then s.(caller := Returned(TargetDead))
      else TryOnce(s.(caller := Sending, monitorRaised := s.toSelf))
    case Attempt => TryOnce(s)
    case ResumeCaller => Return(s)
    case RaiseCancel =>
      s.(cancelRaised := true, caller := if s.cancel == Own && !s.cancelRaised then Wake(s.caller) else s.caller)
    case ChangeRoom(room) => s.(room := room)
    case CloseMailbox => s.(open := false, queued := 0)
    case Receive => s.(queued := s.queued - 1, held := if IsCancelled(s) then s.held else s.held + 1)
    case BeginResponse => if MayRespond(s) then s.(responding := true, begun := s.begun + 1) else s
    case EndResponse =>
      s.(responding := false, ackRaised := true, caller := if s.ackRaised then s.caller else Wake(s.caller),
         inTime := s.inTime || !s.caller.Returned?)
    case Drop => s.(held := s.held - 1)
    case Die =>
      s.(alive := false, open := false, queued := 0, held := 0, responding := false,
         monitorRaised := s.monitorRaised || !s.caller.NotCalled?,
         caller := if s.monitorRaised then s.caller else Wake(s.caller))
  }

  predicate IsStep(s: State, a: Action, t: State) {
    Enabled(s, a) && t == Apply(s, a)
  }

  ghost predicate IsRun(actions: seq<Action>, states: seq<State>) {
    && |states| == |actions| + 1 && Init(states[0])
    && forall i | 0 <= i < |actions| :: IsStep(states[i], actions[i], states[i + 1])
  }

  lemma RunStep(actions: seq<Action>, states: seq<State>, i: nat)
    requires IsRun(actions, states) && i < |actions|
    ensures IsStep(states[i], actions[i], states[i + 1])
  {
  }

  // ----- what every step keeps -----

  /** The one copy of the message is in the mailbox, with the handler, or gone. */
  ghost predicate OneCopy(s: State) {
    && s.queued + s.held <= s.enqueued <= 1
    && (s.enqueued > 0 ==> s.caller.Waiting? || s.caller.Returned?)
    && (s.toSelf ==> s.enqueued == 0 && !s.caller.Sending? && !s.caller.Waiting?)
    && (s.begun > 0 ==> s.enqueued > 0)
    && (s.responding ==> s.held > 0 && s.begun > 0)
  }

  ghost predicate Signals(s: State) {
    && (s.inTime ==> s.begun > 0)
    && (!s.caller.Returned? ==> (s.ackRaised <==> s.inTime))
    && (s.caller.NotCalled? ==> !s.monitorRaised && !s.ackRaised)
    && (s.caller.Sending? || s.caller.Waiting? ==> (s.monitorRaised <==> !s.alive))
    && (!s.alive ==> s.queued == s.held == 0 && !s.responding)
  }

  ghost predicate Verdict(s: State) {
    s.caller.Returned? ==>
      && (s.caller.status == Ok <==> s.inTime)
      && (s.caller.status == Cancelled ==> IsCancelled(s))
      && (s.caller.status == TargetDead ==> !s.alive || s.toSelf)
  }

  ghost predicate Woken(s: State) {
    s.caller.Waiting? ==> (s.caller.woken <==> s.ackRaised || s.monitorRaised || (s.cancel == Own && s.cancelRaised))
  }

  ghost predicate Inv(s: State) {
    OneCopy(s) && Signals(s) && Verdict(s) && Woken(s)
  }

  lemma StepKeepsInv(s: State, a: Action)
    requires Inv(s) && Enabled(s, a)
    ensures Inv(Apply(s, a))
  {
  }

  lemma {:induction false} RunKeepsInv(actions: seq<Action>, states: seq<State>, n: nat)
    requires IsRun(actions, states) && n < |states|
    ensures Inv(states[n])
  {
    if n > 0 {
      RunKeepsInv(actions, states, n - 1);
      RunStep(actions, states, n - 1);
      StepKeepsInv(states[n - 1], actions[n - 1]);
    }
  }

  // ----- what caller and service rely on -----

  /** A service that finds it may respond, and has not begun a response to this message before, does so
      to a caller still suspended inside the call, so what the message points to is alive. */
  lemma RespondsToWaitingCaller(actions: seq<Action>, states: seq<State>, n: nat)
    requires IsRun(actions, states) && n < |actions|
    requires actions[n].BeginResponse? && MayRespond(states[n]) && states[n].begun == 0
    ensures states[n].caller.Waiting?
  {
    RunKeepsInv(actions, states, n);
    RunStep(actions, states, n);
  }

  /** A state before the call, or after it with the message still in the handler's hands. */
  const FREE := State(NotCalled, false, NoSignal, false, false, false, true, true, true, 0, 0, false, 0, 0, false)
  const SENT := FREE.(caller := Waiting(false), queued := 1, enqueued := 1)
  const ANSWERED := FREE.(caller := Returned(Ok), ackRaised := true, monitorRaised := true, held := 1,
                          enqueued := 1, begun := 1, inTime := true)

  /** The check alone would not do: after a response a second one is begun although the call returned. */
  lemma SecondResponseIsLate() returns (actions: seq<Action>, states: seq<State>)
    ensures |actions| == 6 && IsRun(actions, states) && actions[5].BeginResponse?
    ensures states[5].caller == Returned(Ok) && states[6].responding
  {
    actions := [Call, Receive, BeginResponse, EndResponse, ResumeCaller, BeginResponse];
    var got := SENT.(queued := 0, held := 1);
    var begun := got.(responding := true, begun := 1);
    var ended := begun.(responding := false, ackRaised := true, caller := Waiting(true), inTime := true);
    assert Apply(FREE, Call) == SENT;
    assert Apply(ended, ResumeCaller) == ANSWERED;
    states := [FREE, SENT, got, begun, ended, ANSWERED, ANSWERED.(responding := true, begun := 2)];
  }

  /** The status tells what happened: Ok exactly when a response was finished before the return;
      Cancelled only for a cancelled call; TargetDead only for a dead service or a call to oneself.
      The message was put in the mailbox at most once. */
  lemma StatusIsExact(actions: seq<Action>, states: seq<State>, n: nat)
    requires IsRun(actions, states) && n < |states|
    ensures states[n].enqueued <= 1
    ensures states[n].caller.Returned? ==> var status := states[n].caller.status;
      && (status == Ok <==> states[n].inTime)
      && (status == Cancelled ==> IsCancelled(states[n]) && !states[n].inTime)
      && (status == TargetDead ==> (!states[n].alive || states[n].toSelf) && !states[n].inTime)
  {
    RunKeepsInv(actions, states, n);
  }

  /** A call to oneself returns without waiting and without sending anything: TargetDead, or Cancelled
      if it was cancelled before. */
  lemma SelfCallReturns(actions: seq<Action>, states: seq<State>, n: nat)
    requires IsRun(actions, states) && n < |actions|
    requires actions[n].Call? && states[n].toSelf
    ensures states[n + 1].caller ==
      Returned(if states[n].alive && IsCancelled(states[n]) then Cancelled else TargetDead)
    ensures states[n + 1].enqueued == 0
  {
    RunKeepsInv(actions, states, n);
    RunStep(actions, states, n);
  }

  // ----- when the caller is woken -----

  /** A suspended caller is woken exactly by a finished response, the service's death, or a cancel
      signal of its own. */
  lemma WokenIff(actions: seq<Action>, states: seq<State>, n: nat)
    requires IsRun(actions, states) && n < |states| && states[n].caller.Waiting?
    ensures states[n].caller.woken <==>
      states[n].inTime || !states[n].alive || (states[n].cancel == Own && states[n].cancelRaised)
  {
    RunKeepsInv(actions, states, n);
  }

  /** Cancelled by another coroutine's signal, suspended, with no response under way. */
  predicate Unheard(s: State) {
    s.caller == Waiting(false) && s.cancel == Foreign && s.cancelRaised && !s.responding
  }

  lemma UnheardStays(s: State, a: Action, t: State)
    requires IsStep(s, a, t) && Unheard(s) && t.alive
    ensures Unheard(t)
  {
    if a.Die? { assert false; }
  }

  /** A suspended caller whose cancel signal was made by another coroutine stays suspended after the
      cancel as long as the service lives, unless a response had been begun before: the service will not
      begin one any more. */
  lemma {:induction false} ForeignCancelStaysAsleep(actions: seq<Action>, states: seq<State>, m: nat, n: nat)
    requires IsRun(actions, states) && m <= n < |states| && Unheard(states[m])
    requires forall j | m <= j <= n :: states[j].alive
    ensures Unheard(states[n])
    decreases n
  {
    if m < n {
      ForeignCancelStaysAsleep(actions, states, m, n - 1);
      RunStep(actions, states, n - 1);
      UnheardStays(states[n - 1], actions[n - 1], states[n]);
    }
  }

  /** Cancelling a suspended call lets it return Cancelled, as documented, exactly when the signal is the
      caller's own: otherwise it changes nothing for the caller. */
  lemma CancelWakesIff(actions: seq<Action>, states: seq<State>, n: nat)
    requires IsRun(actions, states) && n < |states|
    requires states[n].caller == Waiting(false) && states[n].cancel != NoSignal
    ensures var s := Apply(states[n], RaiseCancel);
      && (Enabled(s, ResumeCaller) <==> states[n].cancel == Own)
      && (states[n].cancel == Own ==> Apply(s, ResumeCaller).caller == Returned(Cancelled))
  {
    RunKeepsInv(actions, states, n);
  }

  /** It happens: the message is sent, and then the call is cancelled. */
  lemma ForeignCancelHappens() returns (actions: seq<Action>, states: seq<State>)
    ensures IsRun(actions, states) && |actions| == 2
    ensures Unheard(states[2]) && states[2].alive
  {
    actions := [Call, RaiseCancel];
    var sent := SENT.(cancel := Foreign);
    states := [FREE.(cancel := Foreign), sent, sent.(cancelRaised := true)];
  }

  // ----- runs as traces -----

  type Path = Trace<State, Action>

  ghost predicate Legal(t: Path) {
    match t
    case From(_) => true
    case Then(before, a, s) => Legal(before) && Enabled(before.state, a) && s == Apply(before.state, a)
  }

  ghost function Step(t: Path, a: Action): Path
    requires Enabled(t.state, a)
  {
    Then(t, a, Apply(t.state, a))
  }

  /** A legal trace is a run in the sense above. */
  lemma {:induction false} TraceIsRun(t: Path) returns (actions: seq<Action>, states: seq<State>)
    requires Legal(t) && Init(t.First())
    ensures IsRun(actions, states) && states[|actions|] == t.state && states[0] == t.First()
  {
    if t.From? {
      actions, states := [], [t.state];
    } else {
      actions, states := TraceIsRun(t.before);
      actions, states := actions + [t.event], states + [t.state];
    }
  }
}
